/**
 * Support tickets (app/handlers/support.py): a user opens a ticket from the support
 * dialogue, an administrator answers or closes it. The ticket table is a map from
 * autoincrement id to record; timestamps are an input `now`, whether the database commit
 * succeeds is an input `commitOk`, and messages sent to users or administrators are not
 * modelled (their failures are caught by the handlers and change no record).
 */
module Support {
  import opened Text
  import opened Fsm
  import opened Rows

  const OPEN := "open"
  const ANSWERED := "answered"
  const CLOSED := "closed"
  const ADMIN_LIST_LIMIT := 20
  const PREVIEW_LENGTH := 50

  datatype Ticket = Ticket(
    id: int,
    userId: int,
    message: string,
    adminResponse: Option<string>,
    status: string,
    createdAt: int,
    answeredAt: Option<int>,
    closedAt: Option<int>
  )

  /** A ticket after an administrator's reply: the response, "answered" and the time; nothing else changes. */
  function Answered(t: Ticket, response: string, now: int): (r: Ticket)
    ensures r.adminResponse == Some(response) && r.status == ANSWERED && r.answeredAt == Some(now)
    ensures r.(adminResponse := t.adminResponse, status := t.status, answeredAt := t.answeredAt) == t
  {
    t.(adminResponse := Some(response), status := ANSWERED, answeredAt := Some(now))
  }

  /** A ticket after it is closed, whatever its status was; nothing else changes. */
  function Closed(t: Ticket, now: int): (r: Ticket)
    ensures r.status == CLOSED && r.closedAt == Some(now)
    ensures r.(status := t.status, closedAt := t.closedAt) == t
  {
    t.(status := CLOSED, closedAt := Some(now))
  }

  /** Closing keeps the answer: a closed ticket still shows the administrator's response. */
  lemma CloseKeepsAnswer(t: Ticket, response: string, answeredAt: int, closedAt: int)
    ensures var c := Closed(Answered(t, response, answeredAt), closedAt);
      c.adminResponse == Some(response) && c.answeredAt == Some(answeredAt) && c.status == CLOSED
      && c.message == t.message && c.userId == t.userId
  {
  }

  /** An answer after closing reopens nothing but does overwrite the status: there is no guard. */
  lemma AnswerAfterCloseUndoesClosedStatus(t: Ticket, response: string, closedAt: int, answeredAt: int)
    ensures var a := Answered(Closed(t, closedAt), response, answeredAt);
      a.status == ANSWERED && a.closedAt == Some(closedAt)
  {
  }

  /** The list preview: the first 50 characters, and "..." exactly when the message is longer. */
  function Preview(message: string): (r: string)
    ensures |message| <= PREVIEW_LENGTH ==> r == message
    ensures |message| > PREVIEW_LENGTH ==> r == message[..PREVIEW_LENGTH] + "..."
    ensures |r| <= PREVIEW_LENGTH + 3
  {
    SliceTo(message, PREVIEW_LENGTH) + (if |message| > PREVIEW_LENGTH then "..." else "")
  }

  /** The `ticket_id` the reply dialogue stored, when it is a truthy integer. */
  function StoredTicketId(data: Data): (r: Option<int>)
    ensures r.Some? <==> "ticket_id" in data && data["ticket_id"].Num? && data["ticket_id"].n != 0
    ensures r.Some? ==> r.value == data["ticket_id"].n
  {
    if "ticket_id" in data && data["ticket_id"].Num? && data["ticket_id"].n != 0
    then Some(data["ticket_id"].n) else None
  }

  datatype SaveResult = TicketCreated(id: int) | TicketFailed

  datatype ReplyResult = NoTicketInState | TicketNotFound | ResponseSaved | ReplyFailed

  class TicketDesk {
    var tickets: map<int, Ticket>
    /** The id the next inserted ticket receives. */
    var nextId: int

    ghost predicate Valid()
      reads this
    {
      nextId >= 1 && forall id :: id in tickets ==> tickets[id].id == id && 1 <= id < nextId
    }

    constructor()
      ensures Valid() && tickets == map[] && nextId == 1
    {
      tickets := map[];
      nextId := 1;
    }

    /**
     * The stored tickets that `keep` accepts, newest first, at most `limit`: every one listed
     * is accepted and stored, and an accepted ticket left out is older than all listed ones
     * and the limit was reached.
     */
    ghost predicate NewestAccepted(r: seq<Ticket>, keep: Ticket -> bool, limit: nat)
      reads this
    {
      && |r| <= limit
      && (forall i :: 0 <= i < |r| ==> r[i].id in tickets && tickets[r[i].id] == r[i] && keep(r[i]))
      && (forall i, j :: 0 <= i < j < |r| ==> r[i].id > r[j].id)
      && (forall id :: id in tickets && keep(tickets[id]) && (forall i :: 0 <= i < |r| ==> r[i].id != id) ==>
            |r| == limit && forall i :: 0 <= i < |r| ==> r[i].id > id)
    }

    function Newest(keep: Ticket -> bool, limit: nat): (r: seq<Ticket>)
      reads this
      requires Valid()
      ensures NewestAccepted(r, keep, limit)
    {
      NewestRows(tickets, nextId, keep, limit, (x: Ticket) => x.id)
    }

    /** The tickets on the administrators' list (`admin_show_tickets`): open ones, newest first, at most 20. */
    function OpenTickets(): (r: seq<Ticket>)
      reads this
      requires Valid()
      ensures NewestAccepted(r, (t: Ticket) => t.status == OPEN, ADMIN_LIST_LIMIT)
    {
      Newest((t: Ticket) => t.status == OPEN, ADMIN_LIST_LIMIT)
    }

    /** `admin_close_ticket`: a missing ticket is reported; any other is closed. */
    method CloseTicket(id: int, now: int, commitOk: bool) returns (found: bool)
      requires Valid()
      modifies this
      ensures Valid() && nextId == old(nextId)
      ensures found == (id in old(tickets))
      ensures tickets == if found && commitOk then old(tickets)[id := Closed(old(tickets)[id], now)] else old(tickets)
    {
      if id !in tickets {
        return false;
      }
      found := true;
      if commitOk {
        tickets := tickets[id := Closed(tickets[id], now)];
      }
    }
  }

  /** The newest ticket, when open, heads the administrators' list. */
  lemma NewestListsNewTicket(desk: TicketDesk, id: int)
    requires desk.Valid() && desk.nextId == id + 1 && id in desk.tickets && desk.tickets[id].status == OPEN
    ensures desk.OpenTickets() != [] && desk.OpenTickets()[0] == desk.tickets[id]
  {
    var r := desk.OpenTickets();
    if forall i :: 0 <= i < |r| ==> r[i].id != id {
      assert false;
    }
    var k :| 0 <= k < |r| && r[k].id == id;
    if k > 0 {
      assert false;
    }
  }

  /** `support_start`: the user is asked for the message; the data is kept. */
  method SupportStart(ctx: FsmContext)
    modifies ctx
    ensures ctx.state == SupportWaitingMessage && ctx.data == old(ctx.data)
  {
    ctx.state := SupportWaitingMessage;
  }

  /**
   * `support_save_ticket` (in the waiting-for-message state): an open ticket with the
   * user's id and text is stored; the conversation is cleared whether or not that worked.
   * It receives exactly the texts for which `Routing.HandlerFor` gives `TicketMessage`:
   * "/start", "/help" and "/cart", and an administrator's "/admin", are taken earlier.
   */
  method SaveTicket(ctx: FsmContext, desk: TicketDesk, userId: int, text: string, now: int, commitOk: bool)
    returns (r: SaveResult)
    requires ctx.state == SupportWaitingMessage && desk.Valid()
    modifies ctx, desk
    ensures desk.Valid()
    ensures ctx.state == NoState && ctx.data == map[]
    ensures commitOk ==>
      && r == TicketCreated(old(desk.nextId))
      && desk.tickets == old(desk.tickets)[old(desk.nextId) := Ticket(old(desk.nextId), userId, text, None, OPEN, now, None, None)]
      && desk.nextId == old(desk.nextId) + 1
      && desk.OpenTickets() != [] && desk.OpenTickets()[0] == desk.tickets[old(desk.nextId)]
    ensures !commitOk ==> r == TicketFailed && desk.tickets == old(desk.tickets) && desk.nextId == old(desk.nextId)
  {
    if commitOk {
      var id := desk.nextId;
      desk.tickets := desk.tickets[id := Ticket(id, userId, text, None, OPEN, now, None, None)];
      desk.nextId := id + 1;
      r := TicketCreated(id);
      NewestListsNewTicket(desk, id);
    } else {
      r := TicketFailed;
    }
    ctx.state, ctx.data := NoState, map[];
  }

  /** `admin_reply_ticket_start`: remembers which ticket the administrator answers. */
  method ReplyTicketStart(ctx: FsmContext, ticketId: int)
    modifies ctx
    ensures ctx.state == SupportWaitingResponse && ctx.data == old(ctx.data)["ticket_id" := Num(ticketId)]
  {
    ctx.state := SupportWaitingResponse;
    ctx.data := ctx.data["ticket_id" := Num(ticketId)];
  }

  /**
   * `admin_send_ticket_response` (in the waiting-for-response state): no ticket id in the
   * data or an unknown ticket changes no ticket; otherwise the ticket is answered and
   * committed before the user is messaged. The conversation is cleared on every path.
   * It receives exactly the texts for which `Routing.HandlerFor` gives `TicketResponse`:
   * the start router's commands, "/admin" and "/ticket_N" links are taken earlier.
   */
  method SendTicketResponse(ctx: FsmContext, desk: TicketDesk, text: string, now: int, commitOk: bool)
    returns (r: ReplyResult)
    requires ctx.state == SupportWaitingResponse && desk.Valid()
    modifies ctx, desk
    ensures desk.Valid() && desk.nextId == old(desk.nextId)
    ensures ctx.state == NoState && ctx.data == map[]
    ensures StoredTicketId(old(ctx.data)).None? ==> r == NoTicketInState && desk.tickets == old(desk.tickets)
    ensures StoredTicketId(old(ctx.data)).Some? ==>
      var id := StoredTicketId(old(ctx.data)).value;
      && (id !in old(desk.tickets) ==> r == TicketNotFound && desk.tickets == old(desk.tickets))
      && (id in old(desk.tickets) && commitOk ==>
            r == ResponseSaved && desk.tickets == old(desk.tickets)[id := Answered(old(desk.tickets)[id], text, now)])
      && (id in old(desk.tickets) && !commitOk ==> r == ReplyFailed && desk.tickets == old(desk.tickets))
  {
    var ticketId := StoredTicketId(ctx.data);
    if ticketId.None? {
      ctx.state, ctx.data := NoState, map[];
      return NoTicketInState;
    }
    var id := ticketId.value;
    if id !in desk.tickets {
      ctx.state, ctx.data := NoState, map[];
      return TicketNotFound;
    }
    if !commitOk {
      ctx.state, ctx.data := NoState, map[];
      return ReplyFailed;
    }
    desk.tickets := desk.tickets[id := Answered(desk.tickets[id], text, now)];
    ctx.state, ctx.data := NoState, map[];
    r := ResponseSaved;
  }
}
