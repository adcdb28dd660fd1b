/**
 * The conversation state that aiogram keeps per user: the current state name and the
 * data dictionary that `update_data` merges into and `clear` empties.
 */
module Fsm {

  /** The states of CheckoutStates and of the support and admin state groups. */
  datatype Phase =
    | NoState
    | WaitingName | WaitingPhone | WaitingEmail | WaitingAddress | WaitingComment | Confirm
    | SupportWaitingMessage | SupportWaitingResponse
    | AdminWaitingMessageToUser | AdminWaitingBroadcast

  /** A value stored in the data dictionary; `Null` is Python's None. */
  datatype Value = Null | Str(s: string) | Num(n: int)

  type Data = map<string, Value>

  /** One user's conversation context. */
  class FsmContext {
    var state: Phase
    var data: Data

    constructor ()
      ensures state == NoState && data == map[]
    {
      state := NoState;
      data := map[];
    }
  }
}
