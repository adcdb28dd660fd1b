/**
 * The checkout dialogue (app/handlers/checkout.py): name, phone, email and address are
 * collected step by step in the conversation data, then the order is shown for
 * confirmation. `Step` is what the checkout router does with one update; each handler
 * method is proved to perform that step on the conversation context. Message texts
 * and keyboards are reduced to the `Reply` they stand for.
 */
module Checkout {
  import opened Text
  import opened Catalog
  import opened Fsm
  import opened CartStore
  import opened Users
  import opened Routing
  import opened Orders

  /** The address stored when the customer skips it: pickup. */
  const PICKUP := "Самовывоз"
  const MIN_NAME_LENGTH := 2
  const MIN_PHONE_DIGITS := 10
  const MIN_ADDRESS_LENGTH := 10

  /**
   * The updates that reach the checkout router, and the main-menu button of the start
   * router, which is registered before it and clears the conversation.
   */
  datatype Event =
    | MainMenuPressed
    | CheckoutPressed(cartEmpty: bool, user: Option<User>, senderFirstName: string)
    | SkipNamePressed(senderFirstName: string)
    | SkipEmailPressed
    | SkipAddressPressed
    | EditPressed
    | CancelPressed
    | TextSent(text: string)

  datatype Reply =
    | CartIsEmpty | AskName | NameTooShort | AskPhone | PhoneInvalid | AskEmail | EmailInvalid
    | AskAddress | AddressTooShort | ShowConfirmation | AskNameAgain | OrderCancelled
    | MainMenu | MenuFailed | NotHandled | TooLong

  /**
   * The profile write a step asks the user service for: the phone, the email, or, for the
   * start router's main menu, `get_or_create_user` with the sender's profile.
   */
  datatype Effect = NoEffect | SavePhone(phone: string) | SaveEmail(email: string) | TouchProfile

  datatype Outcome = Outcome(phase: Phase, data: Data, reply: Reply, effect: Effect)

  predicate ValidName(name: string) { |name| >= MIN_NAME_LENGTH }

  predicate ValidPhone(phone: string) { |DigitsOf(phone)| >= MIN_PHONE_DIGITS }

  predicate ValidEmail(email: string) { '@' in email && '.' in email }

  predicate ValidAddress(address: string) { |address| >= MIN_ADDRESS_LENGTH }

  /** The name offered by `start_checkout`: the stored profile's first name, else the sender's. */
  function DefaultName(user: Option<User>, senderFirstName: string): (v: Value)
    ensures user.None? ==> v == Str(senderFirstName)
    ensures user.Some? && user.value.firstName.None? ==> v == Null
    ensures user.Some? && user.value.firstName.Some? ==> v == Str(user.value.firstName.value)
  {
    match user
    case None => Str(senderFirstName)
    case Some(u) => if u.firstName.Some? then Str(u.firstName.value) else Null
  }

  function Unhandled(phase: Phase, data: Data): Outcome
  {
    Outcome(phase, data, NotHandled, NoEffect)
  }

  /** The replies that leave the conversation as it was. */
  predicate Rejected(r: Reply)
  {
    || r.CartIsEmpty? || r.NameTooShort? || r.PhoneInvalid? || r.EmailInvalid? || r.AddressTooShort?
    || r.NotHandled? || r.TooLong?
  }

  /** `process_name` on the stripped text. */
  function OnName(data: Data, t: string): (o: Outcome)
    ensures ValidName(t) <==> o.reply == AskPhone
    ensures o.reply == AskPhone ==> o.phase == WaitingPhone && o.data == data["name" := Str(t)]
    ensures o.reply != AskPhone ==> o == Outcome(WaitingName, data, NameTooShort, NoEffect)
  {
    if !ValidName(t) then Outcome(WaitingName, data, NameTooShort, NoEffect)
    else Outcome(WaitingPhone, data["name" := Str(t)], AskPhone, NoEffect)
  }

  /** `process_phone` on the stripped text: a valid phone is stored and saved to the profile. */
  function OnPhone(data: Data, t: string): (o: Outcome)
    ensures ValidPhone(t) <==> o.reply == AskEmail
    ensures o.reply == AskEmail ==> o.phase == WaitingEmail && o.data == data["phone" := Str(t)] && o.effect == SavePhone(t)
    ensures o.reply != AskEmail ==> o == Outcome(WaitingPhone, data, PhoneInvalid, NoEffect)
  {
    if !ValidPhone(t) then Outcome(WaitingPhone, data, PhoneInvalid, NoEffect)
    else Outcome(WaitingEmail, data["phone" := Str(t)], AskEmail, SavePhone(t))
  }

  /** `process_email` on the stripped text: a valid email is stored and saved to the profile. */
  function OnEmail(data: Data, t: string): (o: Outcome)
    ensures ValidEmail(t) <==> o.reply == AskAddress
    ensures o.reply == AskAddress ==> o.phase == WaitingAddress && o.data == data["email" := Str(t)] && o.effect == SaveEmail(t)
    ensures o.reply != AskAddress ==> o == Outcome(WaitingEmail, data, EmailInvalid, NoEffect)
  {
    if !ValidEmail(t) then Outcome(WaitingEmail, data, EmailInvalid, NoEffect)
    else Outcome(WaitingAddress, data["email" := Str(t)], AskAddress, SaveEmail(t))
  }

  /** `process_address` on the stripped text. */
  function OnAddress(data: Data, t: string): (o: Outcome)
    ensures ValidAddress(t) <==> o.reply == ShowConfirmation
    ensures o.reply == ShowConfirmation ==> o.phase == Confirm && o.data == data["address" := Str(t)]
    ensures o.reply != ShowConfirmation ==> o == Outcome(WaitingAddress, data, AddressTooShort, NoEffect)
  {
    if !ValidAddress(t) then Outcome(WaitingAddress, data, AddressTooShort, NoEffect)
    else Outcome(Confirm, data["address" := Str(t)], ShowConfirmation, NoEffect)
  }

  /** Which handler `OnText` uses in each input state. */
  lemma Dispatch(phase: Phase, data: Data, t: string)
    ensures phase == WaitingName ==> OnText(phase, data, t) == OnName(data, t)
    ensures phase == WaitingPhone ==> OnText(phase, data, t) == OnPhone(data, t)
    ensures phase == WaitingEmail ==> OnText(phase, data, t) == OnEmail(data, t)
    ensures phase == WaitingAddress ==> OnText(phase, data, t) == OnAddress(data, t)
  {
  }

  /** A text message, already stripped: handled in the four input states. */
  function OnText(phase: Phase, data: Data, t: string): (o: Outcome)
    ensures Rejected(o.reply) ==> o.phase == phase && o.data == data && o.effect == NoEffect
    ensures !Rejected(o.reply) ==> data.Keys <= o.data.Keys && o.phase != WaitingComment && o.reply != OrderCancelled
    ensures o.reply != MainMenu && o.effect != TouchProfile
    ensures o.effect.SavePhone? ==> phase == WaitingPhone && o.phase == WaitingEmail && ValidPhone(o.effect.phone)
    ensures o.effect.SavePhone? ==> "phone" in o.data && o.data["phone"] == Str(o.effect.phone)
    ensures o.effect.SaveEmail? ==> phase == WaitingEmail && o.phase == WaitingAddress && ValidEmail(o.effect.email)
    ensures o.effect.SaveEmail? ==> "email" in o.data && o.data["email"] == Str(o.effect.email)
  {
    match phase
    case WaitingName => OnName(data, t)
    case WaitingPhone => OnPhone(data, t)
    case WaitingEmail => OnEmail(data, t)
    case WaitingAddress => OnAddress(data, t)
    case _ => Unhandled(phase, data)
  }

  /** A text message, routed: the start router's commands first, then the checkout handlers. */
  function OnMessage(phase: Phase, data: Data, text: string): (o: Outcome)
    ensures Rejected(o.reply) ==> o.phase == phase && o.data == data && o.effect == NoEffect
    ensures o.phase == WaitingComment ==> phase == WaitingComment
    ensures o.effect.SavePhone? ==> phase == WaitingPhone && o.phase == WaitingEmail && ValidPhone(o.effect.phone)
    ensures o.effect.SavePhone? ==> "phone" in o.data && o.data["phone"] == Str(o.effect.phone)
    ensures o.effect.SaveEmail? ==> phase == WaitingEmail && o.phase == WaitingAddress && ValidEmail(o.effect.email)
    ensures o.effect.SaveEmail? ==> "email" in o.data && o.data["email"] == Str(o.effect.email)
    ensures o.reply != OrderCancelled
    ensures o.reply == MainMenu <==> IsStartCommand(text)
    ensures o.reply == MainMenu ==> o.phase == NoState && o.data == map[]
    ensures o.effect == TouchProfile <==> o.reply == MainMenu
    ensures IsMenuCommand(text) && !IsStartCommand(text) ==> o.reply == NotHandled
    ensures PastStartRouter(text) ==> o == OnText(phase, data, Strip(text))
    ensures o.reply != MainMenu ==> data.Keys <= o.data.Keys
  {
    if IsStartCommand(text) then Outcome(NoState, map[], MainMenu, TouchProfile)
    else if IsMenuCommand(text) then Unhandled(phase, data)
    else OnText(phase, data, Strip(text))
  }

  /**
   * One update, routed as the bot's routers are ordered: "/start" and the main-menu button
   * clear the conversation, "/help" and "/cart" leave it alone, and everything else goes
   * to the checkout router. A rejected or unrouted update changes nothing, the comment state
   * is never entered, profile writes carry validated values, and the data only grows until
   * the order is cancelled or the conversation is reset.
   */
  function Step(phase: Phase, data: Data, e: Event): (o: Outcome)
    ensures Rejected(o.reply) ==> o.phase == phase && o.data == data && o.effect == NoEffect
    ensures o.phase == WaitingComment ==> phase == WaitingComment
    ensures o.effect.SavePhone? ==> phase == WaitingPhone && o.phase == WaitingEmail && ValidPhone(o.effect.phone)
    ensures o.effect.SavePhone? ==> "phone" in o.data && o.data["phone"] == Str(o.effect.phone)
    ensures o.effect.SaveEmail? ==> phase == WaitingEmail && o.phase == WaitingAddress && ValidEmail(o.effect.email)
    ensures o.effect.SaveEmail? ==> "email" in o.data && o.data["email"] == Str(o.effect.email)
    ensures o.reply == OrderCancelled <==> phase == Confirm && e == CancelPressed
    ensures o.reply == OrderCancelled ==> o.phase == NoState && o.data == map[]
    ensures o.reply == MainMenu <==> e.MainMenuPressed? || (e.TextSent? && IsStartCommand(e.text))
    ensures o.reply == MainMenu ==> o.phase == NoState && o.data == map[]
    ensures o.effect == TouchProfile <==> o.reply == MainMenu
    ensures e.TextSent? && IsMenuCommand(e.text) && !IsStartCommand(e.text) ==> o.reply == NotHandled
    ensures e.TextSent? ==> o == OnMessage(phase, data, e.text)
    ensures o.reply != OrderCancelled && o.reply != MainMenu ==> data.Keys <= o.data.Keys
  {
    match e
    case MainMenuPressed => Outcome(NoState, map[], MainMenu, TouchProfile)
    case CheckoutPressed(cartEmpty, user, sender) =>
      if cartEmpty then Outcome(phase, data, CartIsEmpty, NoEffect)
      else Outcome(WaitingName, data["default_name" := DefaultName(user, sender)], AskName, NoEffect)
    case SkipNamePressed(sender) =>
      if phase != WaitingName then Unhandled(phase, data)
      else
        var name := if "default_name" in data then data["default_name"] else Str(sender);
        Outcome(WaitingPhone, data["name" := name], AskPhone, NoEffect)
    case SkipEmailPressed =>
      if phase != WaitingEmail then Unhandled(phase, data)
      else Outcome(WaitingAddress, data["email" := Null], AskAddress, NoEffect)
    case SkipAddressPressed =>
      if phase != WaitingAddress then Unhandled(phase, data)
      else Outcome(Confirm, data["address" := Str(PICKUP)], ShowConfirmation, NoEffect)
    case EditPressed =>
      if phase != Confirm then Unhandled(phase, data)
      else Outcome(WaitingName, data, AskNameAgain, NoEffect)
    case CancelPressed =>
      if phase != Confirm then Unhandled(phase, data)
      else Outcome(NoState, map[], OrderCancelled, NoEffect)
    case TextSent(text) => OnMessage(phase, data, text)
  }

  /**
   * A text that is not one of the start router's commands is handled by the checkout
   * text handlers on its stripped form: the handler methods below perform `Step`.
   */
  lemma TextReachingCheckout(phase: Phase, data: Data, text: string)
    requires PastStartRouter(text)
    ensures Step(phase, data, TextSent(text)) == OnText(phase, data, Strip(text))
  {
  }

  /** "/start" resets the conversation from any state, whatever it held. */
  lemma StartResets(phase: Phase, data: Data, text: string)
    requires FirstWord(text) == "/start"
    ensures Step(phase, data, TextSent(text)) == Outcome(NoState, map[], MainMenu, TouchProfile)
    ensures Step(phase, data, TextSent(text)) == Step(phase, data, MainMenuPressed)
  {
  }

  /** The conversation after a sequence of updates. */
  function Run(phase: Phase, data: Data, events: seq<Event>): (Phase, Data)
    decreases |events|
  {
    if events == [] then (phase, data)
    else
      var o := Step(phase, data, events[0]);
      Run(o.phase, o.data, events[1..])
  }

  predicate IsStr(data: Data, key: string) { key in data && data[key].Str? }

  /**
   * What a draft holds in each checkout state: from the phone step on a name, from the
   * email step on a phone with at least ten digits, from the address step on an email that
   * is either skipped or has '@' and '.', and at confirmation a pickup or a full address.
   */
  predicate DraftValid(phase: Phase, data: Data)
  {
    && (phase in {WaitingPhone, WaitingEmail, WaitingAddress, Confirm} ==> "name" in data)
    && (phase in {WaitingEmail, WaitingAddress, Confirm} ==> IsStr(data, "phone") && ValidPhone(data["phone"].s))
    && (phase in {WaitingAddress, Confirm} ==>
          "email" in data && (data["email"] == Null || (data["email"].Str? && ValidEmail(data["email"].s))))
    && (phase == Confirm ==>
          IsStr(data, "address") && (data["address"].s == PICKUP || ValidAddress(data["address"].s)))
  }

  lemma StepKeepsDraftValid(phase: Phase, data: Data, e: Event)
    requires DraftValid(phase, data)
    ensures var o := Step(phase, data, e); DraftValid(o.phase, o.data)
  {
    if e.TextSent? && PastStartRouter(e.text) {
      TextReachingCheckout(phase, data, e.text);
      TextKeepsDraftValid(phase, data, Strip(e.text));
    }
  }

  lemma TextKeepsDraftValid(phase: Phase, data: Data, t: string)
    requires DraftValid(phase, data)
    ensures var o := OnText(phase, data, t); DraftValid(o.phase, o.data)
  {
  }

  /** Every conversation that starts valid stays valid, whatever the updates. */
  lemma {:induction false} RunKeepsDraftValid(phase: Phase, data: Data, events: seq<Event>)
    requires DraftValid(phase, data)
    ensures var (p, d) := Run(phase, data, events); DraftValid(p, d)
    decreases |events|
  {
    if events != [] {
      StepKeepsDraftValid(phase, data, events[0]);
      var o := Step(phase, data, events[0]);
      RunKeepsDraftValid(o.phase, o.data, events[1..]);
    }
  }

  /** A fresh conversation reaches confirmation only with a valid draft. */
  lemma ConfirmedDraftIsValid(events: seq<Event>)
    ensures var (p, d) := Run(NoState, map[], events); p == Confirm ==> DraftValid(p, d)
  {
    RunKeepsDraftValid(NoState, map[], events);
  }

  /** The declared comment step is never entered: no handler moves into it. */
  lemma {:induction false} CommentNeverEntered(phase: Phase, data: Data, events: seq<Event>)
    requires phase != WaitingComment
    ensures Run(phase, data, events).0 != WaitingComment
    decreases |events|
  {
    if events != [] {
      var o := Step(phase, data, events[0]);
      CommentNeverEntered(o.phase, o.data, events[1..]);
    }
  }

  /**
   * The user table after a step's profile write, as `update_phone` and `update_email`
   * perform it: the row takes the value when the commit succeeds, the value fits its column
   * and the user exists; otherwise the table is unchanged. `TouchProfile` is performed by
   * `OpenMainMenu`.
   */
  function AfterEffect(table: map<int, User>, userId: int, e: Effect, commitOk: bool, now: int): (r: map<int, User>)
    ensures r.Keys == table.Keys
    ensures forall id :: id in table && id != userId ==> r[id] == table[id]
    ensures e.SavePhone? && userId in r ==>
      r[userId] == if commitOk && |e.phone| <= PHONE_WIDTH then table[userId].(phone := Some(e.phone), updatedAt := now) else table[userId]
    ensures e.SaveEmail? && userId in r ==>
      r[userId] == if commitOk && |e.email| <= EMAIL_WIDTH then table[userId].(email := Some(e.email), updatedAt := now) else table[userId]
    ensures e == NoEffect || e == TouchProfile ==> r == table
  {
    match e
    case SavePhone(phone) =>
      if commitOk && |phone| <= PHONE_WIDTH && userId in table
      then table[userId := table[userId].(phone := Some(phone), updatedAt := now)] else table
    case SaveEmail(email) =>
      if commitOk && |email| <= EMAIL_WIDTH && userId in table
      then table[userId := table[userId].(email := Some(email), updatedAt := now)] else table
    case _ => table
  }

  /**
   * `cmd_start` and `callback_start`: the conversation is cleared first, then the sender's
   * profile is fetched or created. The main menu follows when that call returns; when its
   * commit fails the exception reaches the handler's except branch, which answers
   * "Произошла ошибка" and leaves the cleared conversation as it is.
   */
  method OpenMainMenu(ctx: FsmContext, users: UserService, userId: int, username: Option<string>,
                      firstName: Option<string>, lastName: Option<string>, now: int, commitOk: bool)
    returns (reply: Reply)
    requires users.Valid()
    modifies ctx, users
    ensures users.Valid()
    ensures var o := Step(old(ctx.state), old(ctx.data), MainMenuPressed);
      ctx.state == o.phase && ctx.data == o.data && o.effect == TouchProfile
    ensures reply == MainMenu || reply == MenuFailed
    ensures reply == MenuFailed <==>
      !commitOk && (userId !in old(users.users) || NeedsUpdate(old(users.users)[userId], username, firstName, lastName))
    ensures reply == MenuFailed ==> users.users == old(users.users) && users.joined == old(users.joined)
    ensures reply == MainMenu ==>
      && users.users == old(users.users)[userId := if userId in old(users.users)
           then Refreshed(old(users.users)[userId], username, firstName, lastName, now)
           else NewUser(userId, username, firstName, lastName, now)]
      && users.joined == old(users.joined) + (if userId in old(users.users) then [] else [userId])
  {
    ctx.state := NoState;
    ctx.data := map[];
    var r := users.GetOrCreateUser(userId, username, firstName, lastName, now, commitOk);
    reply := if r.Raised? then MenuFailed else MainMenu;
  }

  /** `start_checkout`: with items in the cart, asks for the name and offers a default. */
  method StartCheckout(ctx: FsmContext, carts: CartService, catalog: Catalog, users: UserService,
                       userId: int, senderFirstName: string) returns (reply: Reply)
    modifies ctx
    ensures var o := Step(old(ctx.state), old(ctx.data),
                          CheckoutPressed(carts.Lines(userId).Keys * catalog.Keys == {}, users.GetUser(userId), senderFirstName));
      ctx.state == o.phase && ctx.data == o.data && reply == o.reply
  {
    var cart := carts.GetCart(userId, catalog);
    EmptyViewIffNothingResolves(cart.items, carts.Lines(userId), catalog);
    if cart.items == [] {
      return CartIsEmpty;
    }
    var user := users.GetUser(userId);
    ctx.state := WaitingName;
    var defaultName := if user.Some? then (if user.value.firstName.Some? then Str(user.value.firstName.value) else Null)
                       else Str(senderFirstName);
    ctx.data := ctx.data["default_name" := defaultName];
    reply := AskName;
  }

  /** `skip_name`: the stored default name (or the sender's first name) becomes the name. */
  method SkipName(ctx: FsmContext, senderFirstName: string) returns (reply: Reply)
    requires ctx.state == WaitingName
    modifies ctx
    ensures var o := Step(old(ctx.state), old(ctx.data), SkipNamePressed(senderFirstName));
      ctx.state == o.phase && ctx.data == o.data && reply == o.reply
  {
    var name := if "default_name" in ctx.data then ctx.data["default_name"] else Str(senderFirstName);
    ctx.data := ctx.data["name" := name];
    ctx.state := WaitingPhone;
    reply := AskPhone;
  }

  /** `process_name` */
  method ProcessName(ctx: FsmContext, text: string) returns (reply: Reply)
    requires ctx.state == WaitingName
    modifies ctx
    ensures var o := OnText(old(ctx.state), old(ctx.data), Strip(text));
      ctx.state == o.phase && ctx.data == o.data && reply == o.reply
  {
    var name := Strip(text);
    ghost var o := OnText(ctx.state, ctx.data, Strip(text));
    Dispatch(ctx.state, ctx.data, name);
    if |name| < MIN_NAME_LENGTH {
      return NameTooShort;
    }
    ctx.data := ctx.data["name" := Str(name)];
    ctx.state := WaitingPhone;
    reply := AskPhone;
  }

  /**
   * `process_phone`: a phone with at least ten digits is kept and saved to the profile; the
   * profile keeps it only when it fits the profile's phone column.
   */
  method ProcessPhone(ctx: FsmContext, users: UserService, userId: int, text: string, now: int, commitOk: bool)
    returns (reply: Reply)
    requires ctx.state == WaitingPhone && users.Valid()
    modifies ctx, users
    ensures users.Valid()
    ensures var o := OnText(old(ctx.state), old(ctx.data), Strip(text));
      && ctx.state == o.phase && ctx.data == o.data && reply == o.reply
      && users.joined == old(users.joined)
      && users.users == AfterEffect(old(users.users), userId, o.effect, commitOk, now)
  {
    var phone := Strip(text);
    var digits := DigitsOf(phone);
    ghost var o := OnText(ctx.state, ctx.data, Strip(text));
    Dispatch(ctx.state, ctx.data, phone);
    if |digits| < MIN_PHONE_DIGITS {
      return PhoneInvalid;
    }
    assert o.effect == SavePhone(phone);
    ctx.data := ctx.data["phone" := Str(phone)];
    var ok := users.UpdatePhone(userId, phone, now, commitOk);
    ctx.state := WaitingEmail;
    reply := AskEmail;
  }

  /** `skip_email`: the email is recorded as absent. */
  method SkipEmail(ctx: FsmContext) returns (reply: Reply)
    requires ctx.state == WaitingEmail
    modifies ctx
    ensures var o := Step(old(ctx.state), old(ctx.data), SkipEmailPressed);
      ctx.state == o.phase && ctx.data == o.data && reply == o.reply
  {
    ctx.data := ctx.data["email" := Null];
    ctx.state := WaitingAddress;
    reply := AskAddress;
  }

  /**
   * `process_email`: an email with '@' and '.' is kept and saved to the profile; the
   * profile keeps it only when it fits the profile's email column.
   */
  method ProcessEmail(ctx: FsmContext, users: UserService, userId: int, text: string, now: int, commitOk: bool)
    returns (reply: Reply)
    requires ctx.state == WaitingEmail && users.Valid()
    modifies ctx, users
    ensures users.Valid()
    ensures var o := OnText(old(ctx.state), old(ctx.data), Strip(text));
      && ctx.state == o.phase && ctx.data == o.data && reply == o.reply
      && users.joined == old(users.joined)
      && users.users == AfterEffect(old(users.users), userId, o.effect, commitOk, now)
  {
    var email := Strip(text);
    ghost var o := OnText(ctx.state, ctx.data, Strip(text));
    Dispatch(ctx.state, ctx.data, email);
    if !ValidEmail(email) {
      return EmailInvalid;
    }
    assert o.effect == SaveEmail(email);
    ctx.data := ctx.data["email" := Str(email)];
    var ok := users.UpdateEmail(userId, Some(email), now, commitOk);
    ctx.state := WaitingAddress;
    reply := AskAddress;
  }

  /** `skip_address`: pickup, then the confirmation. */
  method SkipAddress(ctx: FsmContext) returns (reply: Reply)
    requires ctx.state == WaitingAddress
    modifies ctx
    ensures var o := Step(old(ctx.state), old(ctx.data), SkipAddressPressed);
      ctx.state == o.phase && ctx.data == o.data && reply == o.reply
  {
    ctx.data := ctx.data["address" := Str(PICKUP)];
    reply := ShowOrderConfirmation(ctx);
  }

  /** `process_address`: an address of at least ten characters, then the confirmation. */
  method ProcessAddress(ctx: FsmContext, text: string) returns (reply: Reply)
    requires ctx.state == WaitingAddress
    modifies ctx
    ensures var o := OnText(old(ctx.state), old(ctx.data), Strip(text));
      ctx.state == o.phase && ctx.data == o.data && reply == o.reply
  {
    var address := Strip(text);
    ghost var o := OnText(ctx.state, ctx.data, Strip(text));
    Dispatch(ctx.state, ctx.data, address);
    if |address| < MIN_ADDRESS_LENGTH {
      return AddressTooShort;
    }
    ctx.data := ctx.data["address" := Str(address)];
    reply := ShowOrderConfirmation(ctx);
  }

  /** `show_order_confirmation`: the summary is shown and the dialogue waits for confirmation. */
  method ShowOrderConfirmation(ctx: FsmContext) returns (reply: Reply)
    modifies ctx
    ensures ctx.state == Confirm && ctx.data == old(ctx.data) && reply == ShowConfirmation
  {
    ctx.state := Confirm;
    reply := ShowConfirmation;
  }

  /** `edit_order`: back to the name step; the entered details stay in the data. */
  method EditOrder(ctx: FsmContext) returns (reply: Reply)
    requires ctx.state == Confirm
    modifies ctx
    ensures var o := Step(old(ctx.state), old(ctx.data), EditPressed);
      ctx.state == o.phase && ctx.data == o.data && reply == o.reply
  {
    ctx.state := WaitingName;
    reply := AskNameAgain;
  }

  /** `cancel_order`: the conversation is cleared. */
  method CancelOrder(ctx: FsmContext) returns (reply: Reply)
    requires ctx.state == Confirm
    modifies ctx
    ensures var o := Step(old(ctx.state), old(ctx.data), CancelPressed);
      ctx.state == o.phase && ctx.data == o.data && reply == o.reply
  {
    ctx.state := NoState;
    ctx.data := map[];
    reply := OrderCancelled;
  }

  /**
   * The phone check counts digits only, so a phone written with spaces, brackets and
   * dashes passes with more characters than the 20-character phone columns hold: the
   * profile never stores it, and the draft can no longer be inserted as an order.
   */
  lemma OversizedPhoneAccepted(code: string, middle: string, last: string)
    requires code == "+7 (912) " && middle == "345 - " && last == "67 - 89"
    ensures var t := code + middle + last;
      var o := OnText(WaitingPhone, map["name" := Str("Ivan")], Strip(t));
      && o.reply == AskEmail && o.effect == SavePhone(t)
      && |t| > PHONE_WIDTH && !Insertable(o.data)
  {
    ExamplePhone(code, middle, last);
  }

  /** "+7 (912) 345 - 67 - 89": eleven digits in 22 characters, with nothing to strip. */
  lemma ExamplePhone(code: string, middle: string, last: string)
    requires code == "+7 (912) " && middle == "345 - " && last == "67 - 89"
    ensures var t := code + middle + last; ValidPhone(t) && Strip(t) == t && |t| == 22
  {
    ExampleDigits(code, middle, last);
    var t := code + middle + last;
    assert t[0] == '+' && t[|t| - 1] == '9';
    assert StripLeft(t) == t;
  }

  lemma ExampleDigits(code: string, middle: string, last: string)
    requires code == "+7 (912) " && middle == "345 - " && last == "67 - 89"
    ensures |DigitsOf(code + middle + last)| == 11
  {
    DigitsOfAppend(code + middle, last);
    DigitsOfAppend(code, middle);
    CodeDigits();
    MiddleDigits();
    LastDigits();
  }

  lemma CodeDigits() ensures DigitsOf("+7 (912) ") == "7912" {}

  lemma MiddleDigits() ensures DigitsOf("345 - ") == "345" {}

  lemma LastDigits() ensures DigitsOf("67 - 89") == "6789" {}

  /** A text that fits the column its checkout step stores it in, where that column is bounded. */
  predicate FitsColumn(phase: Phase, t: string)
  {
    && (phase == WaitingName ==> |t| <= CUSTOMER_NAME_WIDTH)
    && (phase == WaitingPhone ==> |t| <= PHONE_WIDTH && |t| <= CUSTOMER_PHONE_WIDTH)
    && (phase == WaitingEmail ==> |t| <= EMAIL_WIDTH && |t| <= CUSTOMER_EMAIL_WIDTH)
  }

  /**
   * The checkout text handlers as evidently intended: a name, phone or email that does not
   * fit its column is refused in the step that asks for it; everything else is handled as
   * the source does.
   */
  function OnTextFitting(phase: Phase, data: Data, t: string): (o: Outcome)
    ensures !FitsColumn(phase, t) ==> o == Outcome(phase, data, TooLong, NoEffect)
    ensures FitsColumn(phase, t) ==> o == OnText(phase, data, t)
  {
    if FitsColumn(phase, t) then OnText(phase, data, t) else Outcome(phase, data, TooLong, NoEffect)
  }

  /**
   * With the width checks, a draft the database accepts stays one the database accepts, and
   * every profile write carries a value its column holds.
   */
  lemma FittingTextKeepsInsertable(phase: Phase, data: Data, t: string)
    requires Insertable(data)
    ensures var o := OnTextFitting(phase, data, t);
      && Insertable(o.data)
      && (o.effect.SavePhone? ==> |o.effect.phone| <= PHONE_WIDTH)
      && (o.effect.SaveEmail? ==> |o.effect.email| <= EMAIL_WIDTH)
  {
    var o := OnTextFitting(phase, data, t);
    if FitsColumn(phase, t) && !Rejected(o.reply) {
      match phase
      case WaitingName => assert o.data == data["name" := Str(t)];
      case WaitingPhone => assert o.data == data["phone" := Str(t)];
      case WaitingEmail => assert o.data == data["email" := Str(t)];
      case WaitingAddress => assert o.data == data["address" := Str(t)];
      case _ =>
    }
  }
}
