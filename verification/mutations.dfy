/**
  The add, edit and delete handlers of the expense page. Each mutation is one
  atomic step: the dialog result or the confirmation decides whether a gateway
  call is made, and the gateway's answer decides whether the list is reloaded.
 */
module Mutations {
  import opened Wrappers
  import opened Model
  import opened ExpenseList
  import opened ExpenseDialog

  /** The calls the page makes on the expense service. `key` is `expense.id!`:
      the non-null assertion is a compile-time claim only, so it may be absent. */
  datatype Request =
    | Create(body: Expense)
    | Update(key: Option<int>, body: Expense)
    | Delete(key: Option<int>)

  /** What the user did: closed the add dialog, closed the edit dialog opened on
      `original`, or answered the delete confirmation for `target`. */
  datatype Intent =
    | Add(result: Option<Expense>)
    | Edit(original: Expense, result: Option<Expense>)
    | Remove(target: Expense, confirmed: bool)

  /** The gateway's answer to the mutation; on success, `reload` is the answer to
      the `getAll()` that the success handler issues. */
  datatype Outcome = Failure | Success(reload: Load)

  /** A snack-bar notice. */
  datatype Notice = Notice(message: string, action: string, durationMs: nat)

  /** Where the per-mutation state machine ends: no call made, the call succeeded,
      or the call failed. */
  datatype Phase = Idle | Succeeded | Failed

  /** The result of one mutation step. */
  datatype Effect = Effect(state: ListState, request: Option<Request>, phase: Phase, notice: Option<Notice>)

  const NoticeAction: string := "OK"
  const NoticeDurationMs: nat := 3000

  /** The confirmation text of a successful call. */
  function SuccessMessage(r: Request): string {
    match r
    case Create(_) => "Ausgabe hinzugef\U{00FC}gt"
    case Update(_, _) => "Ausgabe aktualisiert"
    case Delete(_) => "Ausgabe gel\U{00F6}scht"
  }

  /** The call a closed dialog or a confirmation leads to: a dialog result that is
      present (an object, hence truthy) leads to create or update, the update keyed
      by the id of the expense the dialog was opened on; a confirmed delete leads to
      a delete by the target's id; anything else leads to no call. */
  function Issue(intent: Intent): (req: Option<Request>)
    ensures req.None? <==> match intent
      case Add(result) => result.None?
      case Edit(_, result) => result.None?
      case Remove(_, confirmed) => !confirmed
    ensures req.Some? && intent.Add? ==> req.value == Create(intent.result.value)
    ensures req.Some? && intent.Edit? ==> req.value == Update(intent.original.id, intent.result.value)
    ensures req.Some? && intent.Remove? ==> req.value == Delete(intent.target.id)
  {
    match intent
    case Add(result) => if result.Some? then Some(Create(result.value)) else None
    case Edit(original, result) => if result.Some? then Some(Update(original.id, result.value)) else None
    case Remove(target, confirmed) => if confirmed then Some(Delete(target.id)) else None
  }

  /** The subscribe callback of a call: only a success runs it, which reloads the
      list and shows the notice; a failure has no handler and changes nothing. */
  function Settle(s: ListState, r: Request, out: Outcome): (e: Effect)
    ensures e.request == Some(r)
    ensures out.Failure? ==> e.state == s && e.phase == Failed && e.notice.None?
    ensures out.Success? ==>
      && e.phase == Succeeded
      && e.notice == Some(Notice(SuccessMessage(r), NoticeAction, NoticeDurationMs))
      && e.state == Reload(s, out.reload)
  {
    match out
    case Failure => Effect(s, Some(r), Failed, None)
    case Success(load) =>
      Effect(Reload(s, load), Some(r), Succeeded, Some(Notice(SuccessMessage(r), NoticeAction, NoticeDurationMs)))
  }

  /** One mutation from start to end. The outcome is ignored when no call is made. */
  function Mutate(s: ListState, intent: Intent, out: Outcome): (e: Effect)
    ensures e.request == Issue(intent)
    ensures e.request.None? ==> e.state == s && e.phase == Idle && e.notice.None?
    ensures e.request.Some? && out.Failure? ==> e.state == s && e.phase == Failed && e.notice.None?
    ensures e.state.filter == s.filter
    ensures e.state != s ==>
      && e.request.Some? && out.Success? && out.reload.Loaded?
      && e.state.data == out.reload.items
    ensures Consistent(s) ==> Consistent(e.state)
  {
    match Issue(intent)
    case None => Effect(s, None, Idle, None)
    case Some(r) => Settle(s, r, out)
  }

  /** Declining the delete confirmation makes no call and leaves the list, the
      filter and the total as they were, whatever the gateway would have said. */
  lemma DeclinedDeleteChangesNothing(s: ListState, target: Expense, out: Outcome)
    ensures Mutate(s, Remove(target, false), out) == Effect(s, None, Idle, None)
  {
  }

  /** Cancelling either dialog makes no call and changes nothing. */
  lemma CancelChangesNothing(s: ListState, original: Expense, out: Outcome)
    ensures Mutate(s, Add(OnCancel().result), out) == Effect(s, None, Idle, None)
    ensures Mutate(s, Edit(original, OnCancel().result), out) == Effect(s, None, Idle, None)
  {
  }

  /** Saving the add dialog creates a draft without id, and only for a valid form. */
  lemma AddFlow(s: ListState, f: Form, iso: Instant -> string, out: Outcome)
    ensures OnSave(f, None, iso).ClosedWith? <==> Valid(f)
    ensures OnSave(f, None, iso).ClosedWith? ==>
      var d := OnSave(f, None, iso).result.value;
      d.id.None? && Mutate(s, Add(Some(d)), out).request == Some(Create(d))
  {
  }

  /** Saving the edit dialog opened on `e` sends an update keyed by `e`'s id whose
      body carries that same id, for any edits the user made. */
  lemma EditKeepsId(s: ListState, e: Expense, f: Form, iso: Instant -> string, out: Outcome)
    requires OnSave(f, Some(e), iso).ClosedWith?
    ensures var d := OnSave(f, Some(e), iso).result.value;
      && d.id == e.id
      && Mutate(s, Edit(e, Some(d)), out).request == Some(Update(e.id, d))
  {
  }

  /** A successful mutation whose reload arrives shows exactly the reloaded rows
      under the unchanged filter, and its total is the reference sum of them. */
  lemma SuccessReplacesList(s: ListState, intent: Intent, items: seq<Expense>)
    requires Issue(intent).Some?
    ensures var e := Mutate(s, intent, Success(Loaded(items)));
      && e.state.data == items && e.state.filter == s.filter
      && e.state.total == SumWhere(items, Shown(s.filter))
      && e.phase == Succeeded && e.notice.Some?
  {
  }

  /** A page event: the filter select, a reload, or a mutation with its outcome. */
  datatype Event =
    | SelectFilter(selection: string)
    | LoadList(load: Load)
    | Mutation(intent: Intent, out: Outcome)

  /** The list state after one event. */
  function Step(s: ListState, ev: Event): ListState {
    match ev
    case SelectFilter(selection) => ApplyFilter(s, selection)
    case LoadList(load) => Reload(s, load)
    case Mutation(intent, out) => Mutate(s, intent, out).state
  }

  /** The list state after a sequence of events, starting from `s`. */
  function Run(s: ListState, evs: seq<Event>): ListState
    decreases |evs|
  {
    if evs == [] then s else Run(Step(s, evs[0]), evs[1..])
  }

  /** From the initial state, after any sequence of filter changes, reloads and
      mutations, the total shown is the total of the rows shown. */
  lemma {:induction false} TotalAlwaysMatchesView(s: ListState, evs: seq<Event>)
    requires Consistent(s)
    ensures Consistent(Run(s, evs))
    decreases |evs|
  {
    if evs != [] {
      TotalAlwaysMatchesView(Step(s, evs[0]), evs[1..]);
    }
  }

  /** The initial page state is consistent, so every reachable state is. */
  lemma ReachableStatesConsistent(evs: seq<Event>)
    ensures Consistent(Run(Initial, evs))
  {
    TotalAlwaysMatchesView(Initial, evs);
  }
}
