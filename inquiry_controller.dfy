/** The support inquiries of server/controllers/inquiryController.js over
    the schema of server/models/Inquiry.js: renters and owners open them,
    everyone lists their own, administrators list, reply to and close them.
    An inquiry is OPEN when created, REPLIED after a reply and CLOSED after a
    close; reply and close apply from any status. */
module InquiryController {
  import opened Common
  import opened Models
  import opened Store

  /** JavaScript truthiness of an optional string field: present and
      non-empty. */
  predicate Truthy(s: Option<string>) {
    s.Some? && s.value != ""
  }

  /** The inquiry `Inquiry.create` stores: `trim` runs on subject and message,
      no reply, status OPEN. */
  function NewInquiry(user: UserId, subject: string, message: string, now: int): (q: Inquiry)
    ensures q.user == user && q.status == Open && q.reply.None?
    ensures q.subject == Trim(subject) && q.message == Trim(message)
  {
    Inquiry(user, Trim(subject), Trim(message), None, Open, now)
  }

  /** `createInquiry`: renters and owners only (403); subject and message
      must both be present and non-empty (400); one holding only white space
      is emptied by `trim` and then fails the required check (500).
      Otherwise one OPEN inquiry owned by the caller is appended. */
  method CreateInquiry(db: Db, user: User, subject: Option<string>, message: Option<string>, now: int) returns (r: Response<InquiryId>)
    modifies db`inquiries
    ensures user.role != Renter && user.role != Owner ==>
      r == Err(FORBIDDEN, "Only renters and owners can raise support inquiries")
    ensures (user.role == Renter || user.role == Owner) && !(Truthy(subject) && Truthy(message)) ==>
      r == Err(BAD_REQUEST, "Subject and message are required")
    ensures ((user.role == Renter || user.role == Owner) && Truthy(subject) && Truthy(message)
             && (Trim(subject.value) == "" || Trim(message.value) == "")) ==>
      r == Err(SERVER_ERROR, "Failed to submit inquiry")
    ensures r.Ok? <==>
      ((user.role == Renter || user.role == Owner) && Truthy(subject) && Truthy(message)
       && Trim(subject.value) != "" && Trim(message.value) != "")
    ensures r.Ok? ==>
      && r == Ok(CREATED, |old(db.inquiries)|)
      && db.inquiries == old(db.inquiries) + [NewInquiry(user.id, subject.value, message.value, now)]
    ensures r.Err? ==> db.inquiries == old(db.inquiries)
  {
    if user.role != Renter && user.role != Owner {
      return Err(FORBIDDEN, "Only renters and owners can raise support inquiries");
    }
    if subject.None? || subject.value == "" || message.None? || message.value == "" {
      return Err(BAD_REQUEST, "Subject and message are required");
    }
    var inquiry := NewInquiry(user.id, subject.value, message.value, now);
    if inquiry.subject == "" || inquiry.message == "" {
      return Err(SERVER_ERROR, "Failed to submit inquiry");
    }
    r := Ok(CREATED, |db.inquiries|);
    db.inquiries := db.inquiries + [inquiry];
  }

  /** `getMyInquiries`: for any caller, exactly the inquiries they own. */
  function GetMyInquiries(inquiries: seq<Inquiry>, user: User): (r: seq<InquiryId>)
    ensures forall k :: k in r <==> 0 <= k < |inquiries| && inquiries[k].user == user.id
  {
    Select(inquiries, (q: Inquiry) => q.user == user.id)
  }

  /** `getAllInquiriesAdmin`: administrators only; every inquiry. */
  function GetAllInquiriesAdmin(inquiries: seq<Inquiry>, user: User): (r: Response<seq<InquiryId>>)
    ensures user.role != Admin ==> r == Err(FORBIDDEN, "Access denied")
    ensures user.role == Admin ==> r.Ok? && forall k :: k in r.value <==> 0 <= k < |inquiries|
  {
    if user.role != Admin then Err(FORBIDDEN, "Access denied")
    else Ok(OK, Select(inquiries, (q: Inquiry) => true))
  }

  /** Each user's own list is part of the administrator's, and two users'
      lists never share an inquiry. */
  lemma MyInquiriesPartition(inquiries: seq<Inquiry>, a: User, b: User, admin: User)
    requires admin.role == Admin && a.id != b.id
    ensures forall k :: k in GetMyInquiries(inquiries, a) ==> k in GetAllInquiriesAdmin(inquiries, admin).value
    ensures forall k :: k in GetMyInquiries(inquiries, a) ==> k !in GetMyInquiries(inquiries, b)
  {
  }

  /** `replyToInquiry`: administrators only (403); the reply must be present
      and non-empty (400), checked before the lookup (404). The inquiry takes
      the trimmed reply and status REPLIED, whatever its status was, closed
      included. The reply email needs the owner's account; when it is gone
      the handler fails with 500 after the change has been saved. */
  method ReplyToInquiry(db: Db, user: User, id: InquiryId, reply: Option<string>, userExists: UserId -> bool) returns (r: Response<string>)
    modifies db`inquiries
    ensures user.role != Admin ==> r == Err(FORBIDDEN, "Access denied") && db.inquiries == old(db.inquiries)
    ensures user.role == Admin && !Truthy(reply) ==>
      r == Err(BAD_REQUEST, "Reply message is required") && db.inquiries == old(db.inquiries)
    ensures user.role == Admin && Truthy(reply) && id >= |old(db.inquiries)| ==>
      r == Err(NOT_FOUND, "Inquiry not found") && db.inquiries == old(db.inquiries)
    ensures user.role == Admin && Truthy(reply) && id < |old(db.inquiries)| ==>
      && db.inquiries == old(db.inquiries)[id := old(db.inquiries)[id].(reply := Some(Trim(reply.value)), status := Replied)]
      && r == (if userExists(old(db.inquiries)[id].user) then Ok(OK, "Reply sent successfully")
               else Err(SERVER_ERROR, "Failed to reply to inquiry"))
  {
    if user.role != Admin {
      return Err(FORBIDDEN, "Access denied");
    }
    if reply.None? || reply.value == "" {
      return Err(BAD_REQUEST, "Reply message is required");
    }
    if id >= |db.inquiries| {
      return Err(NOT_FOUND, "Inquiry not found");
    }
    var inquiry := db.inquiries[id];
    db.inquiries := db.inquiries[id := inquiry.(reply := Some(Trim(reply.value)), status := Replied)];
    if !userExists(inquiry.user) {
      return Err(SERVER_ERROR, "Failed to reply to inquiry");
    }
    r := Ok(OK, "Reply sent successfully");
  }

  /** `closeInquiry`: administrators only (403); a found inquiry (else 404)
      becomes CLOSED, whatever its status was. */
  method CloseInquiry(db: Db, user: User, id: InquiryId) returns (r: Response<string>)
    modifies db`inquiries
    ensures user.role != Admin ==> r == Err(FORBIDDEN, "Access denied") && db.inquiries == old(db.inquiries)
    ensures user.role == Admin && id >= |old(db.inquiries)| ==>
      r == Err(NOT_FOUND, "Inquiry not found") && db.inquiries == old(db.inquiries)
    ensures user.role == Admin && id < |old(db.inquiries)| ==>
      && r == Ok(OK, "Inquiry closed successfully")
      && db.inquiries == old(db.inquiries)[id := old(db.inquiries)[id].(status := Closed)]
  {
    if user.role != Admin {
      return Err(FORBIDDEN, "Access denied");
    }
    if id >= |db.inquiries| {
      return Err(NOT_FOUND, "Inquiry not found");
    }
    db.inquiries := db.inquiries[id := db.inquiries[id].(status := Closed)];
    r := Ok(OK, "Inquiry closed successfully");
  }

  /** Closing is idempotent, and a reply reopens nothing but the status: a
      closed inquiry replied to becomes REPLIED with the reply, and everything
      else about it stays. */
  lemma CloseIdempotentReplyAfterClose(inquiries: seq<Inquiry>, id: InquiryId, reply: string)
    requires id < |inquiries|
    ensures var closed := inquiries[id := inquiries[id].(status := Closed)];
      && closed[id := closed[id].(status := Closed)] == closed
      && var replied := closed[id := closed[id].(reply := Some(Trim(reply)), status := Replied)];
         replied[id].status == Replied && replied[id].user == inquiries[id].user
         && replied[id].subject == inquiries[id].subject && replied[id].message == inquiries[id].message
  {
  }
}
