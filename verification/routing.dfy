/**
 * Which handler a text message reaches (app/handlers/__init__.py). The routers are tried in
 * registration order: start, catalog, cart, checkout, payment, admin, and support with the
 * administrators' ticket router inside it. Each router tries its own handlers before its
 * sub-router's. The first handler whose filters all pass takes the message. Catalog, cart
 * and payment have no message handlers. The admin routers pass only administrators' updates.
 */
module Routing {
  import opened Text
  import opened Fsm

  /**
   * A text a `Command` filter takes for `command` ("/" and the command's name): its first
   * word is the command, alone or with an empty "@" mention.
   */
  predicate IsCommand(text: string, command: string)
  {
    var w := FirstWord(text);
    w == command || w == command + "@"
  }

  /** "/start" goes to `cmd_start`, which clears the conversation before anything else. */
  predicate IsStartCommand(text: string) { IsCommand(text, "/start") }

  /** "/help" and "/cart" go to the start router's handlers, which leave the conversation alone. */
  predicate IsMenuCommand(text: string) { IsCommand(text, "/help") || IsCommand(text, "/cart") }

  /** A text that the start router, registered first, lets through. */
  predicate PastStartRouter(text: string) { !IsStartCommand(text) && !IsMenuCommand(text) }

  /** "/admin" opens the administrators' panel. */
  predicate IsAdminCommand(text: string) { IsCommand(text, "/admin") }

  /** `F.text.regexp(r"/ticket_(\d+)")`, which matches at the start: "/ticket_" and a digit. */
  predicate IsTicketLink(text: string) { |text| > 8 && text[..8] == "/ticket_" && IsDigit(text[8]) }

  /** `F.text.regexp(r"/order_(\d+)")`: "/order_" and a digit at the start. */
  predicate IsOrderLink(text: string) { |text| > 7 && text[..7] == "/order_" && IsDigit(text[7]) }

  /** The checkout states that have a message handler. */
  predicate CheckoutInput(phase: Phase)
  {
    phase == WaitingName || phase == WaitingPhone || phase == WaitingEmail || phase == WaitingAddress
  }

  predicate AdminInput(phase: Phase) { phase == AdminWaitingMessageToUser || phase == AdminWaitingBroadcast }

  datatype Handler =
    | StartCommand    // cmd_start
    | MenuCommand     // cmd_help, cmd_cart
    | CheckoutText    // process_name, process_phone, process_email, process_address
    | AdminPanel      // admin_panel
    | AdminStateText  // the admin router's message-to-user and broadcast handlers
    | TicketMessage   // support_save_ticket
    | TicketDetails   // admin_show_ticket_details
    | TicketResponse  // admin_send_ticket_response
    | Unrouted

  /**
   * The handler a text reaches in a conversation state, from an administrator or not.
   * `admin_order_details`, registered between the panel and the admin states, is left out
   * because no text reaches it: its two filters exclude each other (OrderFiltersExclusive).
   */
  function HandlerFor(phase: Phase, text: string, isAdmin: bool): (h: Handler)
    ensures h == StartCommand <==> IsStartCommand(text)
    ensures h == MenuCommand <==> !IsStartCommand(text) && IsMenuCommand(text)
    ensures h == CheckoutText <==> CheckoutInput(phase) && PastStartRouter(text)
    ensures h == AdminPanel <==> isAdmin && IsAdminCommand(text) && PastStartRouter(text) && !CheckoutInput(phase)
    ensures h == TicketMessage <==>
      phase == SupportWaitingMessage && PastStartRouter(text) && !(isAdmin && IsAdminCommand(text))
    ensures h == TicketDetails <==>
      && isAdmin && IsTicketLink(text) && PastStartRouter(text) && !IsAdminCommand(text)
      && !CheckoutInput(phase) && !AdminInput(phase) && phase != SupportWaitingMessage
    ensures h == TicketResponse <==>
      phase == SupportWaitingResponse && isAdmin && PastStartRouter(text) && !IsAdminCommand(text) && !IsTicketLink(text)
    ensures !isAdmin ==> h in {StartCommand, MenuCommand, CheckoutText, TicketMessage, Unrouted}
  {
    if IsStartCommand(text) then StartCommand
    else if IsMenuCommand(text) then MenuCommand
    else if CheckoutInput(phase) then CheckoutText
    else if isAdmin && IsAdminCommand(text) then AdminPanel
    else if isAdmin && AdminInput(phase) then AdminStateText
    else if phase == SupportWaitingMessage then TicketMessage
    else if isAdmin && IsTicketLink(text) then TicketDetails
    else if isAdmin && phase == SupportWaitingResponse then TicketResponse
    else Unrouted
  }

  /**
   * `admin_order_details` is registered with `Command(commands=["order"])` and
   * `F.text.regexp(r"/order_(\d+)")`: a text "/order_N" has the first word "/order_N", not
   * "/order", so no text passes both filters.
   */
  lemma OrderFiltersExclusive(text: string)
    ensures !(IsCommand(text, "/order") && IsOrderLink(text))
  {
    if IsOrderLink(text) {
      assert text[0] == '/' && text[6] == '_';
      assert StripLeft(text) == text;
      var w := FirstWord(text);
      // "/order" would have to be followed by whitespace, "/order@" has '@' where the text has '_'
      assert |w| > 6 ==> w[6] == '_';
    }
  }
}
