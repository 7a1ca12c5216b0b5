/** The vocabulary every other module shares: run statuses and ledger entries. */
module Runs {

  type RunId = string

  /** A run's status column. `Other` stands for any string the program does not know. */
  datatype Status =
    | Queued
    | Running
    | Succeeded
    | Failed
    | Canceled
    | BudgetExceeded
    | Partial
    | Other(name: string)

  /** No further work will happen on this run. */
  predicate Terminal(s: Status) {
    match s
    case Succeeded | Failed | Canceled | BudgetExceeded | Partial => true
    case _ => false
  }

  datatype Option<+T> = None | Some(value: T)

  /** What an entry carries; only its `status` member is ever read back by the program. */
  datatype Payload = Payload(status: Option<Status>, body: string)

  /** What a JSON column is given: no bytes and a bare null both become SQL NULL. */
  function JsonOrNil(body: Option<string>): Option<string> {
    if body == None || body.value == "" || body.value == "null" then None else body
  }

  const EvRunQueued := "run_queued"
  const EvStatus := "status"

  /** One ledger entry as the database stores it and as the stream sends it. */
  datatype Event = Event(seqNo: int, typ: string, agent: string, payload: Payload)

  /** The status a stream should close on, if this entry announces one. */
  function TerminalStatusIn(p: Payload): (r: Option<Status>)
    ensures r.Some? <==> p.status.Some? && Terminal(p.status.value)
    ensures r.Some? ==> r == p.status
  {
    if p.status.Some? && Terminal(p.status.value) then p.status else None
  }

  /** The entry on which a live stream closes. */
  predicate Closes(e: Event) {
    e.typ == EvStatus && TerminalStatusIn(e.payload).Some?
  }
}
