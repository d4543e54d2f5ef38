/**
 * The invoice server actions (create, update, delete) and the login action.
 * The database, the cache and navigation are collaborators the actions
 * cannot see into: the reply of the database is an input, and every call
 * an action makes on a collaborator is appended, in order, to the trace of
 * a Runtime object.
 */
module Actions {
  import opened Wrappers
  import opened InvoiceSchema

  /** The form state handed back to the page: field errors and a message. */
  datatype State = State(errors: Option<FieldErrors>, message: Option<string>)

  /** The three statements the actions issue, with their parameters. */
  datatype Statement =
    | InsertInvoice(customerId: string, amountInCents: real, status: Status, date: string)
    | UpdateInvoice(id: string, customerId: string, amountInCents: real, status: Status)
    | DeleteInvoice(id: string)

  /** Whether the database ran a statement or raised an error. */
  datatype DbReply = DbOk | DbError

  /** One call on a collaborator. */
  datatype Effect =
    | Sql(statement: Statement, reply: DbReply)
    | LogDbError
    | RevalidatePath(path: string)
    | Redirect(path: string)

  /**
   * How an action ends: it returns a state, returns nothing, leaves through
   * redirect (which never returns to the action), or throws.
   */
  datatype Outcome = Returned(state: State) | Done | Redirected(to: string) | Thrown(message: string)

  /** An action's outcome with the calls it made. */
  datatype Run = Run(outcome: Outcome, effects: seq<Effect>)

  const InvoicesPath: string := "/dashboard/invoices"

  function EditPath(id: string): string {
    InvoicesPath + "/" + id + "/edit"
  }

  const CreateMissingFields: string := "Campi mancanti. Impossibile creare la Fattura."
  const CreateDbFailed: string := "Errore del Database: Impossibile creare la Fattura."
  const UpdateMissingFields: string := "Campi mancanti. Impossibile aggiornare la Fattura."
  const UpdateDbFailed: string := "Errore del Database: Impossibile aggiornare la Fattura."
  const DeleteFailed: string := "Impossibile Eliminare la Fattura."

  /** Amounts are stored in cents. */
  function Cents(amount: real): (cents: real)
    ensures cents / 100.0 == amount
  {
    amount * 100.0
  }

  function CountRevalidations(effects: seq<Effect>, path: string): nat {
    if effects == [] then 0
    else (if effects[0] == RevalidatePath(path) then 1 else 0) + CountRevalidations(effects[1..], path)
  }

  /**
   * The discipline every action keeps: at most one statement, issued first;
   * a failed statement is only logged; the cache is revalidated and the
   * user redirected only after a statement that succeeded; a redirect ends
   * the action.
   */
  ghost predicate Disciplined(effects: seq<Effect>) {
    && (forall i :: 0 < i < |effects| ==> !effects[i].Sql?)
    && (forall i :: 0 <= i < |effects| && (effects[i].RevalidatePath? || effects[i].Redirect?) ==>
          effects[0].Sql? && effects[0].reply == DbOk)
    && (effects != [] && effects[0].Sql? && effects[0].reply == DbError ==> effects[1..] == [LogDbError])
    && (forall i :: 0 <= i < |effects| && effects[i].Redirect? ==> i == |effects| - 1)
  }

  /** What createInvoice does, given the date of today and the database's reply. */
  function CreateRun(prevState: State, form: RawForm, today: string, reply: DbReply): (r: Run)
    ensures Disciplined(r.effects)
    ensures r.outcome.Redirected? <==> Validate(form).Valid? && reply == DbOk
    ensures r.outcome.Redirected? ==>
      r.outcome.to == InvoicesPath && |r.effects| == 3 &&
      r.effects[1..] == [RevalidatePath(InvoicesPath), Redirect(InvoicesPath)]
    ensures Validate(form).Invalid? ==>
      r.effects == [] &&
      r.outcome == Returned(State(Some(Validate(form).errors), Some(CreateMissingFields)))
    ensures Validate(form).Valid? ==>
      var d := Validate(form).draft;
      |r.effects| >= 2 && r.effects[0] == Sql(InsertInvoice(d.customerId, Cents(d.amount), d.status, today), reply)
    ensures Validate(form).Valid? && reply == DbError ==>
      r.outcome == Returned(State(prevState.errors, Some(CreateDbFailed)))
  {
    match Validate(form)
    case Invalid(errors) => Run(Returned(State(Some(errors), Some(CreateMissingFields))), [])
    case Valid(d) =>
      var insert := Sql(InsertInvoice(d.customerId, Cents(d.amount), d.status, today), reply);
      if reply == DbError then
        Run(Returned(prevState.(message := Some(CreateDbFailed))), [insert, LogDbError])
      else
        Run(Redirected(InvoicesPath), [insert, RevalidatePath(InvoicesPath), Redirect(InvoicesPath)])
  }

  /** What updateInvoice does to invoice id, given the database's reply. */
  function UpdateRun(id: string, prevState: State, form: RawForm, reply: DbReply): (r: Run)
    ensures Disciplined(r.effects)
    ensures r.outcome.Redirected? <==> Validate(form).Valid? && reply == DbOk
    ensures r.outcome.Redirected? ==>
      r.outcome.to == InvoicesPath && |r.effects| == 4 &&
      r.effects[1..] == [RevalidatePath(InvoicesPath), RevalidatePath(EditPath(id)), Redirect(InvoicesPath)]
    ensures Validate(form).Invalid? ==>
      r.effects == [] &&
      r.outcome == Returned(State(Some(Validate(form).errors), Some(UpdateMissingFields)))
    ensures Validate(form).Valid? ==>
      var d := Validate(form).draft;
      |r.effects| >= 2 && r.effects[0] == Sql(UpdateInvoice(id, d.customerId, Cents(d.amount), d.status), reply)
    ensures Validate(form).Valid? && reply == DbError ==>
      r.outcome == Returned(State(None, Some(UpdateDbFailed)))
  {
    match Validate(form)
    case Invalid(errors) => Run(Returned(State(Some(errors), Some(UpdateMissingFields))), [])
    case Valid(d) =>
      var update := Sql(UpdateInvoice(id, d.customerId, Cents(d.amount), d.status), reply);
      if reply == DbError then
        Run(Returned(State(None, Some(UpdateDbFailed))), [update, LogDbError])
      else
        Run(Redirected(InvoicesPath),
            [update, RevalidatePath(InvoicesPath), RevalidatePath(EditPath(id)), Redirect(InvoicesPath)])
  }

  /** What deleteInvoice does to invoice id, given the database's reply. */
  function DeleteRun(id: string, reply: DbReply): (r: Run)
    ensures Disciplined(r.effects)
    ensures |r.effects| == 2 && r.effects[0] == Sql(DeleteInvoice(id), reply)
    ensures forall i :: 0 <= i < |r.effects| ==> !r.effects[i].Redirect?
    ensures r.outcome.Thrown? <==> reply == DbError
    ensures r.outcome.Thrown? ==> r.outcome.message == DeleteFailed
    ensures reply == DbOk ==> r.outcome == Done && CountRevalidations(r.effects, InvoicesPath) == 1
  {
    var delete := Sql(DeleteInvoice(id), reply);
    if reply == DbError then Run(Thrown(DeleteFailed), [delete, LogDbError])
    else
      var effects := [delete, RevalidatePath(InvoicesPath)];
      assert effects[1..][1..] == [];
      assert CountRevalidations(effects[1..], InvoicesPath) == 1;
      Run(Done, effects)
  }

  /** The create and update actions apply the same rules: one validates exactly when the other does. */
  lemma CreateAndUpdateAgree(id: string, prevState: State, form: RawForm, today: string, reply: DbReply)
    ensures CreateRun(prevState, form, today, reply).effects == [] <==>
            UpdateRun(id, prevState, form, reply).effects == []
    ensures CreateRun(prevState, form, today, reply).outcome.Redirected? <==>
            UpdateRun(id, prevState, form, reply).outcome.Redirected?
  {
  }

  /** The collaborators the actions call, as a trace of the calls made on them. */
  class Runtime {
    var trace: seq<Effect>

    constructor ()
      ensures trace == []
    {
      trace := [];
    }

    /** Runs a statement; the reply says whether the database raised an error. */
    method Execute(statement: Statement, reply: DbReply) returns (ok: bool)
      modifies this
      ensures ok <==> reply == DbOk
      ensures trace == old(trace) + [Sql(statement, reply)]
    {
      trace := trace + [Sql(statement, reply)];
      ok := reply == DbOk;
    }

    /** console.error of the database error. */
    method LogError()
      modifies this
      ensures trace == old(trace) + [LogDbError]
    {
      trace := trace + [LogDbError];
    }

    method Revalidate(path: string)
      modifies this
      ensures trace == old(trace) + [RevalidatePath(path)]
    {
      trace := trace + [RevalidatePath(path)];
    }

    /** Navigation; the caller leaves the action right after it. */
    method RedirectTo(path: string) returns (out: Outcome)
      modifies this
      ensures out == Redirected(path)
      ensures trace == old(trace) + [Redirect(path)]
    {
      trace := trace + [Redirect(path)];
      out := Redirected(path);
    }
  }

  /** createInvoice: validate, insert, then revalidate the list and redirect to it. */
  method CreateInvoice(rt: Runtime, prevState: State, form: RawForm, today: string, reply: DbReply)
    returns (out: Outcome)
    modifies rt
    ensures out == CreateRun(prevState, form, today, reply).outcome
    ensures rt.trace == old(rt.trace) + CreateRun(prevState, form, today, reply).effects
  {
    var validated := Validate(form);
    if validated.Invalid? {
      return Returned(State(Some(validated.errors), Some(CreateMissingFields)));
    }
    var d := validated.draft;
    var amountInCents := Cents(d.amount);
    var ok := rt.Execute(InsertInvoice(d.customerId, amountInCents, d.status, today), reply);
    if !ok {
      rt.LogError();
      return Returned(prevState.(message := Some(CreateDbFailed)));
    }
    rt.Revalidate(InvoicesPath);
    out := rt.RedirectTo(InvoicesPath);
  }

  /** updateInvoice: validate, update row id, then revalidate the list and its edit page and redirect. */
  method UpdateInvoiceAction(rt: Runtime, id: string, prevState: State, form: RawForm, reply: DbReply)
    returns (out: Outcome)
    modifies rt
    ensures out == UpdateRun(id, prevState, form, reply).outcome
    ensures rt.trace == old(rt.trace) + UpdateRun(id, prevState, form, reply).effects
  {
    var validated := Validate(form);
    if validated.Invalid? {
      return Returned(State(Some(validated.errors), Some(UpdateMissingFields)));
    }
    var d := validated.draft;
    var amountInCents := Cents(d.amount);
    var ok := rt.Execute(UpdateInvoice(id, d.customerId, amountInCents, d.status), reply);
    if !ok {
      rt.LogError();
      return Returned(State(None, Some(UpdateDbFailed)));
    }
    rt.Revalidate(InvoicesPath);
    rt.Revalidate(EditPath(id));
    out := rt.RedirectTo(InvoicesPath);
  }

  /** deleteInvoice: delete row id and revalidate the list; a database error is thrown on. */
  method DeleteInvoiceAction(rt: Runtime, id: string, reply: DbReply) returns (out: Outcome)
    modifies rt
    ensures out == DeleteRun(id, reply).outcome
    ensures rt.trace == old(rt.trace) + DeleteRun(id, reply).effects
  {
    var ok := rt.Execute(DeleteInvoice(id), reply);
    if ok {
      rt.Revalidate(InvoicesPath);
      out := Done;
    } else {
      rt.LogError();
      out := Thrown(DeleteFailed);
    }
  }

  // authenticate

  /** What signIn raised, if anything: an AuthError of some type, or any other error. */
  datatype SignInError = AuthError(errorType: string) | OtherError(description: string)

  /** authenticate either returns a message (or nothing) or throws an error on. */
  datatype AuthResult = Message(text: Option<string>) | Rethrow(error: SignInError)

  const InvalidCredentials: string := "Credenziali non valide."
  const UnknownAuthError: string := "Errore sconosciuto durante l'autenticazione."

  function Authenticate(signIn: Option<SignInError>): (r: AuthResult)
    ensures r.Rethrow? <==> signIn.Some? && signIn.value.OtherError?
    ensures r.Rethrow? ==> r.error == signIn.value
    ensures signIn.None? ==> r == Message(None)
    ensures r.Message? && r.text.Some? ==>
      r.text.value in {InvalidCredentials, UnknownAuthError} && signIn.Some? && signIn.value.AuthError?
    ensures signIn.Some? && signIn.value.AuthError? ==>
      (r == Message(Some(InvalidCredentials)) <==> signIn.value.errorType == "CredentialsSignin")
    ensures signIn.Some? && signIn.value.AuthError? && signIn.value.errorType != "CredentialsSignin" ==>
      r == Message(Some(UnknownAuthError))
  {
    match signIn
    case None => Message(None)
    case Some(AuthError(errorType)) =>
      if errorType == "CredentialsSignin" then Message(Some(InvalidCredentials))
      else Message(Some(UnknownAuthError))
    case Some(OtherError(_)) => Rethrow(signIn.value)
  }
}
