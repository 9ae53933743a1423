/**
 * The earlier single-file revision of the application. Its handlers match the
 * final revision's except that the dashboard does not order transactions, the
 * registration message differs, the transaction table's `frequency` column is
 * non-null with default "einmalig", and a second `/login` handler reports both
 * login failures with one combined message.
 */
module Legacy {
  import opened Wrappers
  import opened Store
  import opened Passwords
  import opened Models
  import opened Accounts
  import opened Queries
  import opened Web

  const RegisteredMessage: string := "Registrierung erfolgreich!"
  const LoginFailedMessage: string := "Login fehlgeschlagen. Bitte überprüfen Sie Ihre Anmeldedaten."

  class App {
    /** Werkzeug's key derivation. */
    const kdf: Kdf
    /** Python's `float()` on a form field: absent when it raises. */
    const parseFloat: string -> Option<real>

    var users: map<nat, User>
    var transactions: map<nat, Transaction>
    var budgets: map<nat, Budget>
    var goals: map<nat, SavingsGoal>
    /** `session["user_id"]`, as the client's signed cookie carries it. */
    var session: Option<nat>

    /** The unique constraints of the user table hold. */
    ghost predicate Valid()
      reads this`users
    {
      UniqueAccounts(users)
    }

    /** No transaction lacks a frequency: the column is declared non-null in this revision. */
    ghost predicate FrequenciesKept()
      reads this`transactions
    {
      FrequenciesPresent(transactions)
    }

    /** The session names an existing user (or there is none). */
    ghost predicate SessionLive()
      reads this`session, this`users
    {
      session.Some? ==> session.value in users
    }

    ghost predicate Consistent()
      reads this`users, this`transactions, this`budgets, this`goals
    {
      OwnersExist(users, transactions, budgets, goals)
    }

    /** A freshly created database; the client presents whatever session cookie it holds. */
    constructor(kdf: Kdf, parseFloat: string -> Option<real>, cookie: Option<nat>)
      ensures Valid() && FrequenciesKept() && Consistent()
      ensures this.kdf == kdf && this.parseFloat == parseFloat
      ensures users == map[] && transactions == map[] && budgets == map[] && goals == map[]
      ensures session == cookie
    {
      this.kdf := kdf;
      this.parseFloat := parseFloat;
      users, transactions, budgets, goals := map[], map[], map[], map[];
      session := cookie;
    }

    /** `/login`: unknown email and wrong password fail with their own messages; only success sets the session. */
    method UserLogin(verb: Verb, form: Form) returns (resp: Response)
      requires Valid()
      modifies this`session
      ensures Valid()
      ensures verb == Get ==> resp == Render(FormView(LoginPage)) && session == old(session)
      ensures verb == Post && !LoginFormComplete(form) ==> resp == BadRequest && session == old(session)
      ensures verb == Post && LoginFormComplete(form) ==>
        match Authenticate(kdf, users, form["email"], form["password"])
        case UnknownEmail => resp == Redirect(LoginPage, Some(UnknownUserMessage)) && session == old(session)
        case WrongPassword => resp == Redirect(LoginPage, Some(WrongPasswordMessage)) && session == old(session)
        case LoggedIn(id) => resp == Redirect(DashboardPage, Some(LoggedInMessage)) && session == Some(id)
    {
      if verb == Get {
        return Render(FormView(LoginPage));
      }
      if !LoginFormComplete(form) {
        return BadRequest;
      }
      var email, password := form["email"], form["password"];
      var found := FindByEmail(users, email);
      if found.None? {
        return Redirect(LoginPage, Some(UnknownUserMessage));
      }
      if !CheckPasswordHash(kdf, users[found.value].password, password) {
        return Redirect(LoginPage, Some(WrongPasswordMessage));
      }
      session := Some(found.value);
      resp := Redirect(DashboardPage, Some(LoggedInMessage));
    }

    /** The second `/login` handler: one combined message for both failures; only success sets the session. */
    method Login(verb: Verb, form: Form) returns (resp: Response)
      requires Valid()
      modifies this`session
      ensures Valid()
      ensures verb == Get ==> resp == Render(FormView(LoginPage)) && session == old(session)
      ensures verb == Post && !LoginFormComplete(form) ==> resp == BadRequest && session == old(session)
      ensures verb == Post && LoginFormComplete(form) ==>
        match Authenticate(kdf, users, form["email"], form["password"])
        case LoggedIn(id) => resp == Redirect(DashboardPage, Some(LoggedInMessage)) && session == Some(id)
        case _ => resp == Redirect(LoginPage, Some(LoginFailedMessage)) && session == old(session)
    {
      if verb == Get {
        return Render(FormView(LoginPage));
      }
      if !LoginFormComplete(form) {
        return BadRequest;
      }
      var outcome := Authenticate(kdf, users, form["email"], form["password"]);
      match outcome
      case LoggedIn(id) =>
        session := Some(id);
        resp := Redirect(DashboardPage, Some(LoggedInMessage));
      case _ =>
        resp := Redirect(LoginPage, Some(LoginFailedMessage));
    }

    /** `/`: to the dashboard when the session names a user id, to the login page otherwise. */
    method Home() returns (resp: Response)
      ensures resp.Redirect? && resp.flash.None?
      ensures resp.target == DashboardPage <==> session.Some?
      ensures resp.target == LoginPage <==> session.None?
    {
      if session.Some? {
        resp := Redirect(DashboardPage, None);
      } else {
        resp := Redirect(LoginPage, None);
      }
    }

    /** `/register`: a taken username or email adds nothing; otherwise exactly one user, holding the hash, is added. */
    method Register(verb: Verb, form: Form, salt: string) returns (resp: Response)
      requires Valid()
      modifies this`users
      ensures Valid()
      ensures verb == Get ==> resp == Render(FormView(RegisterPage)) && users == old(users)
      ensures verb == Post && !RegisterFormComplete(form) ==> resp == BadRequest && users == old(users)
      ensures verb == Post && RegisterFormComplete(form) ==>
        if Taken(old(users), form["username"], form["email"]) then
          resp == Redirect(RegisterPage, Some(AccountTakenMessage)) && users == old(users)
        else
          var user := User(form["username"], form["email"], GeneratePasswordHash(kdf, form["password"], salt));
          resp == Redirect(LoginPage, Some(RegisteredMessage))
          && NextId(old(users).Keys) !in old(users)
          && users == old(users)[NextId(old(users).Keys) := user]
    {
      if verb == Get {
        return Render(FormView(RegisterPage));
      }
      if !RegisterFormComplete(form) {
        return BadRequest;
      }
      var username, email, password := form["username"], form["email"], form["password"];
      var hashed := GeneratePasswordHash(kdf, password, salt);
      if Taken(users, username, email) {
        return Redirect(RegisterPage, Some(AccountTakenMessage));
      }
      var id := NextId(users.Keys);
      FreshAccountKeepsUnique(users, id, User(username, email, hashed));
      users := users[id := User(username, email, hashed)];
      resp := Redirect(LoginPage, Some(RegisteredMessage));
    }

    /** `/logout`: the session is empty afterwards, whatever it held. */
    method Logout() returns (resp: Response)
      modifies this`session
      ensures session == None
      ensures resp == Redirect(LoginPage, Some(LoggedOutMessage))
    {
      session := None;
      resp := Redirect(LoginPage, Some(LoggedOutMessage));
    }

    /** `/dashboard`: the session user's records, in storage order; a session naming no user is cleared. */
    method Dashboard() returns (resp: Response)
      modifies this`session
      ensures old(session).None? ==> session == None && resp == Redirect(LoginPage, Some(PleaseLogInMessage))
      ensures old(session).Some? && old(session).value !in users ==>
        session == None && resp == Redirect(LoginPage, Some(UserGoneMessage))
      ensures old(session).Some? && old(session).value in users ==>
        var uid := old(session).value;
        session == old(session)
        && resp == Render(DashboardView(TransactionsOf(transactions, uid), BudgetsOf(budgets, uid), GoalsOf(goals, uid)))
    {
      if session.None? {
        return Redirect(LoginPage, Some(PleaseLogInMessage));
      }
      var uid := session.value;
      if uid !in users {
        session := None;
        return Redirect(LoginPage, Some(UserGoneMessage));
      }
      resp := Render(DashboardView(TransactionsOf(transactions, uid), BudgetsOf(budgets, uid), GoalsOf(goals, uid)));
    }

    /** `/add_transaction`: a complete, parseable form adds exactly one transaction owned by the session user, with the submitted frequency. */
    method AddTransaction(verb: Verb, form: Form, now: int) returns (resp: Response)
      requires FrequenciesKept()
      modifies this`transactions
      ensures FrequenciesKept()
      ensures session.None? ==>
        resp == Redirect(LoginPage, Some(LogInToAddTransactionMessage)) && transactions == old(transactions)
      ensures session.Some? && verb == Get ==>
        resp == Render(FormView(AddTransactionPage)) && transactions == old(transactions)
      ensures session.Some? && verb == Post && !TransactionFormOk(form, parseFloat) ==>
        resp == Redirect(AddTransactionPage, Some(AddTransactionFailedMessage)) && transactions == old(transactions)
      ensures session.Some? && verb == Post && TransactionFormOk(form, parseFloat) ==>
        var id := NextId(old(transactions).Keys);
        resp == Redirect(DashboardPage, Some(TransactionAddedMessage))
        && id !in old(transactions)
        && transactions == old(transactions)[id := TransactionFromForm(form, parseFloat, session.value, now)]
        && transactions[id].frequency == Some(form["frequency"])
      ensures old(Consistent()) && SessionLive() ==> Consistent()
    {
      if session.None? {
        return Redirect(LoginPage, Some(LogInToAddTransactionMessage));
      }
      if verb == Get {
        return Render(FormView(AddTransactionPage));
      }
      if !TransactionFormOk(form, parseFloat) {
        return Redirect(AddTransactionPage, Some(AddTransactionFailedMessage));
      }
      var id := NextId(transactions.Keys);
      transactions := transactions[id := TransactionFromForm(form, parseFloat, session.value, now)];
      resp := Redirect(DashboardPage, Some(TransactionAddedMessage));
    }

    /** `/delete_transaction/<id>`: 404 when absent, denied when someone else's, otherwise exactly that row goes. */
    method DeleteTransaction(id: nat) returns (resp: Response)
      requires FrequenciesKept()
      modifies this`transactions
      ensures FrequenciesKept()
      ensures session.None? ==>
        resp == Redirect(LoginPage, Some(PleaseLogInToDeleteMessage)) && transactions == old(transactions)
      ensures session.Some? && id !in old(transactions) ==>
        resp == NotFound && transactions == old(transactions)
      ensures session.Some? && id in old(transactions) && old(transactions)[id].userId != session.value ==>
        resp == Redirect(DashboardPage, Some(AccessDeniedMessage)) && transactions == old(transactions)
      ensures session.Some? && id in old(transactions) && old(transactions)[id].userId == session.value ==>
        resp == Redirect(DashboardPage, Some(TransactionDeletedMessage)) && transactions == old(transactions) - {id}
      ensures old(Consistent()) ==> Consistent()
    {
      if session.None? {
        return Redirect(LoginPage, Some(PleaseLogInToDeleteMessage));
      }
      if id !in transactions {
        return NotFound;
      }
      if transactions[id].userId != session.value {
        return Redirect(DashboardPage, Some(AccessDeniedMessage));
      }
      transactions := transactions - {id};
      resp := Redirect(DashboardPage, Some(TransactionDeletedMessage));
    }

    /** `/add_budget`: a complete, parseable form adds exactly one budget owned by the session user. */
    method AddBudget(verb: Verb, form: Form) returns (resp: Response)
      modifies this`budgets
      ensures session.None? ==>
        resp == Redirect(LoginPage, Some(LogInToAddBudgetMessage)) && budgets == old(budgets)
      ensures session.Some? && verb == Get ==>
        resp == Render(FormView(AddBudgetPage)) && budgets == old(budgets)
      ensures session.Some? && verb == Post && !BudgetFormOk(form, parseFloat) ==>
        resp == Redirect(AddBudgetPage, Some(AddBudgetFailedMessage)) && budgets == old(budgets)
      ensures session.Some? && verb == Post && BudgetFormOk(form, parseFloat) ==>
        var id := NextId(old(budgets).Keys);
        resp == Redirect(DashboardPage, Some(BudgetAddedMessage))
        && id !in old(budgets)
        && budgets == old(budgets)[id := BudgetFromForm(form, parseFloat, session.value)]
      ensures old(Consistent()) && SessionLive() ==> Consistent()
    {
      if session.None? {
        return Redirect(LoginPage, Some(LogInToAddBudgetMessage));
      }
      if verb == Get {
        return Render(FormView(AddBudgetPage));
      }
      if !BudgetFormOk(form, parseFloat) {
        return Redirect(AddBudgetPage, Some(AddBudgetFailedMessage));
      }
      var id := NextId(budgets.Keys);
      budgets := budgets[id := BudgetFromForm(form, parseFloat, session.value)];
      resp := Redirect(DashboardPage, Some(BudgetAddedMessage));
    }

    /** `/delete_budget/<id>`: 404 when absent, denied when someone else's, otherwise exactly that row goes. */
    method DeleteBudget(id: nat) returns (resp: Response)
      modifies this`budgets
      ensures session.None? ==>
        resp == Redirect(LoginPage, Some(PleaseLogInToDeleteMessage)) && budgets == old(budgets)
      ensures session.Some? && id !in old(budgets) ==>
        resp == NotFound && budgets == old(budgets)
      ensures session.Some? && id in old(budgets) && old(budgets)[id].userId != session.value ==>
        resp == Redirect(DashboardPage, Some(AccessDeniedMessage)) && budgets == old(budgets)
      ensures session.Some? && id in old(budgets) && old(budgets)[id].userId == session.value ==>
        resp == Redirect(DashboardPage, Some(BudgetDeletedMessage)) && budgets == old(budgets) - {id}
      ensures old(Consistent()) ==> Consistent()
    {
      if session.None? {
        return Redirect(LoginPage, Some(PleaseLogInToDeleteMessage));
      }
      if id !in budgets {
        return NotFound;
      }
      if budgets[id].userId != session.value {
        return Redirect(DashboardPage, Some(AccessDeniedMessage));
      }
      budgets := budgets - {id};
      resp := Redirect(DashboardPage, Some(BudgetDeletedMessage));
    }

    /** `/add_savings_goal`: a complete, parseable form adds exactly one goal, owned by the session user, at 0 saved. */
    method AddSavingsGoal(verb: Verb, form: Form, now: int) returns (resp: Response)
      modifies this`goals
      ensures session.None? ==>
        resp == Redirect(LoginPage, Some(LogInToAddGoalMessage)) && goals == old(goals)
      ensures session.Some? && verb == Get ==>
        resp == Render(FormView(AddSavingsGoalPage)) && goals == old(goals)
      ensures session.Some? && verb == Post && !GoalFormOk(form, parseFloat) ==>
        resp == Redirect(AddSavingsGoalPage, Some(AddGoalFailedMessage)) && goals == old(goals)
      ensures session.Some? && verb == Post && GoalFormOk(form, parseFloat) ==>
        var id := NextId(old(goals).Keys);
        resp == Redirect(DashboardPage, Some(GoalAddedMessage))
        && id !in old(goals)
        && goals == old(goals)[id := GoalFromForm(form, parseFloat, session.value, now)]
        && goals[id].currentAmount == 0.0
      ensures old(Consistent()) && SessionLive() ==> Consistent()
    {
      if session.None? {
        return Redirect(LoginPage, Some(LogInToAddGoalMessage));
      }
      if verb == Get {
        return Render(FormView(AddSavingsGoalPage));
      }
      if !GoalFormOk(form, parseFloat) {
        return Redirect(AddSavingsGoalPage, Some(AddGoalFailedMessage));
      }
      var id := NextId(goals.Keys);
      goals := goals[id := GoalFromForm(form, parseFloat, session.value, now)];
      resp := Redirect(DashboardPage, Some(GoalAddedMessage));
    }

    /** `/delete_savings_goal/<id>`: 404 when absent, denied when someone else's, otherwise exactly that row goes. */
    method DeleteSavingsGoal(id: nat) returns (resp: Response)
      modifies this`goals
      ensures session.None? ==>
        resp == Redirect(LoginPage, Some(PleaseLogInToDeleteMessage)) && goals == old(goals)
      ensures session.Some? && id !in old(goals) ==>
        resp == NotFound && goals == old(goals)
      ensures session.Some? && id in old(goals) && old(goals)[id].userId != session.value ==>
        resp == Redirect(DashboardPage, Some(AccessDeniedMessage)) && goals == old(goals)
      ensures session.Some? && id in old(goals) && old(goals)[id].userId == session.value ==>
        resp == Redirect(DashboardPage, Some(GoalDeletedMessage)) && goals == old(goals) - {id}
      ensures old(Consistent()) ==> Consistent()
    {
      if session.None? {
        return Redirect(LoginPage, Some(PleaseLogInToDeleteMessage));
      }
      if id !in goals {
        return NotFound;
      }
      if goals[id].userId != session.value {
        return Redirect(DashboardPage, Some(AccessDeniedMessage));
      }
      goals := goals - {id};
      resp := Redirect(DashboardPage, Some(GoalDeletedMessage));
    }
  }
}
