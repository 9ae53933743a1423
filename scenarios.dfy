/**
 * Request sequences from the application's tests, and a few more, replayed
 * against the handlers' contracts alone. The tests import their names from the
 * package `app`, which defines none of them but `db`; these scenarios follow
 * what the tests evidently mean, against the handlers of `app.py`.
 */
module Scenarios {
  import opened Wrappers
  import opened Store
  import opened Passwords
  import opened Models
  import opened Web
  import Accounts
  import Queries
  import Legacy
  import Routes

  /** The test fixture's account. */
  const TestUserForm: Form := RegisterForm("testuser", "test@example.com", "password123")

  /** Registering a second account next to the fixture's user succeeds. */
  method RegisterScenario(kdf: Kdf, parseFloat: string -> Option<real>, salt: string)
    returns (registered: Response)
    ensures registered == Redirect(LoginPage, Some(Legacy.RegisteredMessage))
  {
    var app := new Legacy.App(kdf, parseFloat, None);
    var _ := app.Register(Post, TestUserForm, salt);
    registered := app.Register(Post, RegisterForm("newuser", "newuser@example.com", "newpassword"), salt);
  }

  /** The tests' fixture: a fresh database holding only the test user, and no session. */
  method Fixture(kdf: Kdf, parseFloat: string -> Option<real>, salt: string) returns (app: Legacy.App)
    ensures fresh(app) && app.Valid() && app.kdf == kdf && app.parseFloat == parseFloat
    ensures app.users == map[1 := User("testuser", "test@example.com", GeneratePasswordHash(kdf, "password123", salt))]
    ensures app.session == None
    ensures app.transactions == map[] && app.budgets == map[] && app.goals == map[]
  {
    app := new Legacy.App(kdf, parseFloat, None);
    var _ := app.Register(Post, TestUserForm, salt);
  }

  /** Log in with the right password, log out, then log in with a wrong one. */
  method LoginLogoutScenario(kdf: Kdf, parseFloat: string -> Option<real>, salt: string)
    returns (loggedIn: Response, loggedOut: Response, rejected: Response, session: Option<nat>)
    requires kdf(salt, "wrongpassword") != kdf(salt, "password123")
    ensures loggedIn == Redirect(DashboardPage, Some(LoggedInMessage))
    ensures loggedOut == Redirect(LoginPage, Some(LoggedOutMessage))
    ensures rejected == Redirect(LoginPage, Some(WrongPasswordMessage))
    ensures session == None
  {
    var app := Fixture(kdf, parseFloat, salt);
    loggedIn := FixtureLogIn(app, salt);
    loggedOut := app.Logout();
    rejected := FixtureWrongPassword(app, salt);
    session := app.session;
  }

  /** The fixture's user logs in with the right password. */
  method FixtureLogIn(app: Legacy.App, salt: string) returns (resp: Response)
    requires app.Valid()
    requires app.users == map[1 := User("testuser", "test@example.com", GeneratePasswordHash(app.kdf, "password123", salt))]
    modifies app`session
    ensures resp == Redirect(DashboardPage, Some(LoggedInMessage)) && app.session == Some(1)
  {
    var form := LoginForm("test@example.com", "password123");
    assert LoginFormComplete(form) && form["email"] == "test@example.com" && form["password"] == "password123";
    Accounts.LoginSucceedsIff(app.kdf, app.users, "test@example.com", "password123", 1);
    assert Accounts.Authenticate(app.kdf, app.users, form["email"], form["password"]) == Accounts.LoggedIn(1);
    resp := app.UserLogin(Post, form);
  }

  /** The fixture's user tries a password that derives to a different digest. */
  method FixtureWrongPassword(app: Legacy.App, salt: string) returns (resp: Response)
    requires app.Valid()
    requires app.users == map[1 := User("testuser", "test@example.com", GeneratePasswordHash(app.kdf, "password123", salt))]
    requires app.kdf(salt, "wrongpassword") != app.kdf(salt, "password123")
    modifies app`session
    ensures resp == Redirect(LoginPage, Some(WrongPasswordMessage)) && app.session == old(app.session)
  {
    var form := LoginForm("test@example.com", "wrongpassword");
    assert LoginFormComplete(form) && form["email"] == "test@example.com" && form["password"] == "wrongpassword";
    assert !CheckPasswordHash(app.kdf, app.users[1].password, "wrongpassword");
    Accounts.WrongPasswordIff(app.kdf, app.users, "test@example.com", "wrongpassword");
    assert Accounts.Authenticate(app.kdf, app.users, form["email"], form["password"]) == Accounts.WrongPassword;
    resp := app.UserLogin(Post, form);
  }

  /** A logged-in user of a database with no records sees three empty lists. */
  method EmptyDashboard(app: Legacy.App) returns (page: Response)
    requires app.session == Some(1) && 1 in app.users
    requires app.transactions == map[] && app.budgets == map[] && app.goals == map[]
    modifies app`session
    ensures page == Render(DashboardView([], [], []))
  {
    assert Queries.TransactionsOf(map[], 1) == [] && Queries.BudgetsOf(map[], 1) == [] && Queries.GoalsOf(map[], 1) == [];
    page := app.Dashboard();
  }

  /** Without a session, `/` and `/dashboard` send the client to the login page; after logging in the dashboard renders. */
  method DashboardAccessScenario(kdf: Kdf, parseFloat: string -> Option<real>, salt: string)
    returns (home: Response, anonymous: Response, loggedIn: Response, page: Response)
    ensures home == Redirect(LoginPage, None)
    ensures anonymous == Redirect(LoginPage, Some(PleaseLogInMessage))
    ensures loggedIn == Redirect(DashboardPage, Some(LoggedInMessage))
    ensures page == Render(DashboardView([], [], []))
  {
    var app := Fixture(kdf, parseFloat, salt);
    home := app.Home();
    anonymous := app.Dashboard();
    loggedIn := FixtureLogIn(app, salt);
    page := EmptyDashboard(app);
  }

  /** The logged-in user 1 adds one expense of 50 to an empty transaction table. */
  method AddExpense(app: Routes.App, now: int)
    requires app.parseFloat("50") == Some(50.0)
    requires app.session == Some(1) && app.transactions == map[]
    modifies app`transactions
    ensures app.transactions == map[1 := Transaction(50.0, "food", "expense", Some("einmalig"), now, 1)]
  {
    var form := TransactionForm("50", "food", "expense", "einmalig");
    assert TransactionFormOk(form, app.parseFloat);
    assert TransactionFromForm(form, app.parseFloat, 1, now) == Transaction(50.0, "food", "expense", Some("einmalig"), now, 1);
    var _ := app.AddTransaction(Post, form, now);
  }

  /** User 1, logged in, opens a dashboard while the only record is their transaction 1. */
  method OneExpenseDashboard(app: Routes.App, expense: Transaction) returns (page: Response)
    requires app.session == Some(1) && 1 in app.users && expense.userId == 1
    requires app.transactions == map[1 := expense] && app.budgets == map[] && app.goals == map[]
    modifies app`session
    ensures page == Render(DashboardView([Row(1, expense)], [], []))
  {
    var txs, budgets, goals := Queries.TransactionsByDate(app.transactions, 1), Queries.BudgetsOf(app.budgets, 1), Queries.GoalsOf(app.goals, 1);
    assert budgets == [] && goals == [];
    SingleRow(txs, Row(1, expense));
    page := app.Dashboard();
    assert page == Render(DashboardView(txs, budgets, goals));
  }

  /** Alice logs in and adds one expense of 50: her dashboard lists exactly that transaction. */
  method AddThenListScenario(kdf: Kdf, parseFloat: string -> Option<real>, salt: string, now: int)
    returns (page: Response)
    requires parseFloat("50") == Some(50.0)
    ensures page == Render(DashboardView([Row(1, Transaction(50.0, "food", "expense", Some("einmalig"), now, 1))], [], []))
  {
    var app := TwoAccounts(kdf, parseFloat, salt);
    LogIn(app, "a@x.com", "pw1", 1);
    AddExpense(app, now);
    page := OneExpenseDashboard(app, Transaction(50.0, "food", "expense", Some("einmalig"), now, 1));
  }

  /** Alice and Bob hold accounts; nobody is logged in and the other tables are empty. */
  method TwoAccounts(kdf: Kdf, parseFloat: string -> Option<real>, salt: string) returns (app: Routes.App)
    ensures fresh(app) && app.Valid() && app.kdf == kdf && app.parseFloat == parseFloat
    ensures app.users == map[1 := User("alice", "a@x.com", GeneratePasswordHash(kdf, "pw1", salt)),
                             2 := User("bob", "b@x.com", GeneratePasswordHash(kdf, "pw2", salt))]
    ensures app.session == None
    ensures app.transactions == map[] && app.budgets == map[] && app.goals == map[]
  {
    app := new Routes.App(kdf, parseFloat, None);
    var _ := app.Register(Post, RegisterForm("alice", "a@x.com", "pw1"), salt);
    assert app.users == map[1 := User("alice", "a@x.com", GeneratePasswordHash(kdf, "pw1", salt))];
    var _ := app.Register(Post, RegisterForm("bob", "b@x.com", "pw2"), salt);
  }

  /** Logging in with an account's own email and password opens a session for that account. */
  method LogIn(app: Routes.App, email: string, password: string, id: nat)
    requires app.Valid()
    requires id in app.users && app.users[id].email == email
    requires CheckPasswordHash(app.kdf, app.users[id].password, password)
    modifies app`session
    ensures app.session == Some(id)
  {
    var form := LoginForm(email, password);
    assert LoginFormComplete(form) && form["email"] == email && form["password"] == password;
    Accounts.LoginSucceedsIff(app.kdf, app.users, email, password, id);
    assert Accounts.Authenticate(app.kdf, app.users, form["email"], form["password"]) == Accounts.LoggedIn(id);
    var _ := app.UserLogin(Post, form);
  }

  /** The logged-in user adds a monthly food budget of 300 to an empty budget table. */
  method AddFoodBudget(app: Routes.App, uid: nat)
    requires app.parseFloat("300") == Some(300.0)
    requires app.session == Some(uid) && app.budgets == map[]
    modifies app`budgets
    ensures app.budgets == map[1 := Budget("food", 300.0, "monthly", uid)]
  {
    var form := BudgetForm("food", "300", "monthly");
    assert BudgetFormOk(form, app.parseFloat) && BudgetFromForm(form, app.parseFloat, uid) == Budget("food", 300.0, "monthly", uid);
    var _ := app.AddBudget(Post, form);
  }

  /** Bob, logged in, tries to delete Alice's budget 1. */
  method BobDeletes(app: Routes.App) returns (denied: Response)
    requires app.session == Some(2)
    requires app.budgets == map[1 := Budget("food", 300.0, "monthly", 1)]
    modifies app`budgets
    ensures denied == Redirect(DashboardPage, Some(AccessDeniedMessage))
    ensures app.budgets == map[1 := Budget("food", 300.0, "monthly", 1)]
  {
    denied := app.DeleteBudget(1);
  }

  /** Bob, logged in and owning nothing, opens his dashboard while Alice's budget 1 is stored. */
  method BobsDashboard(app: Routes.App) returns (page: Response)
    requires app.session == Some(2) && 2 in app.users
    requires app.budgets == map[1 := Budget("food", 300.0, "monthly", 1)]
    requires app.transactions == map[] && app.goals == map[]
    modifies app`session
    ensures page == Render(DashboardView([], [], []))
  {
    var txs, budgets, goals := Queries.TransactionsByDate(app.transactions, 2), Queries.BudgetsOf(app.budgets, 2), Queries.GoalsOf(app.goals, 2);
    assert txs == [] && goals == [];
    assert budgets == [];
    page := app.Dashboard();
    assert page == Render(DashboardView(txs, budgets, goals));
  }

  /** Alice adds a budget; Bob can neither delete it nor see it, and it stays in the table. */
  method IsolationScenario(kdf: Kdf, parseFloat: string -> Option<real>, salt: string)
    returns (denied: Response, bobsPage: Response, budgets: map<nat, Budget>)
    requires parseFloat("300") == Some(300.0)
    ensures denied == Redirect(DashboardPage, Some(AccessDeniedMessage))
    ensures bobsPage == Render(DashboardView([], [], []))
    ensures budgets == map[1 := Budget("food", 300.0, "monthly", 1)]
  {
    var app := TwoAccounts(kdf, parseFloat, salt);
    LogIn(app, "a@x.com", "pw1", 1);
    AddFoodBudget(app, 1);
    var _ := app.Logout();
    LogIn(app, "b@x.com", "pw2", 2);
    denied := BobDeletes(app);
    bobsPage := BobsDashboard(app);
    budgets := app.budgets;
  }

  /**
   * A session cookie naming a user the database does not have: the add handler
   * accepts it and stores a budget owned by nobody, while the dashboard rejects
   * the same session and clears it.
   */
  method StaleSessionScenario(kdf: Kdf, parseFloat: string -> Option<real>)
    returns (added: Response, page: Response, budgets: map<nat, Budget>, users: map<nat, User>)
    requires parseFloat("300") == Some(300.0)
    ensures added == Redirect(DashboardPage, Some(BudgetAddedMessage))
    ensures page == Redirect(LoginPage, Some(UserGoneMessage))
    ensures budgets == map[1 := Budget("food", 300.0, "monthly", 7)] && users == map[]
    ensures !OwnersExist(users, map[], budgets, map[])
  {
    var app := new Routes.App(kdf, parseFloat, Some(7));
    added := app.AddBudget(Post, BudgetForm("food", "300", "monthly"));
    page := app.Dashboard();
    budgets, users := app.budgets, app.users;
  }

  /** Carol registers on a database with no users: she gets key 1. */
  method CarolRegisters(app: Routes.App, salt: string)
    requires app.Valid() && app.users == map[]
    modifies app`users
    ensures app.Valid()
    ensures app.users == map[1 := User("carol", "c@x.com", GeneratePasswordHash(app.kdf, "pw3", salt))]
  {
    var _ := app.Register(Post, RegisterForm("carol", "c@x.com", "pw3"), salt);
  }

  /** Carol, logged in as user 1, opens her dashboard while budget 1 names user 1 as its owner. */
  method CarolsDashboard(app: Routes.App) returns (page: Response)
    requires app.session == Some(1) && 1 in app.users
    requires app.budgets == map[1 := Budget("food", 300.0, "monthly", 1)]
    requires app.transactions == map[] && app.goals == map[]
    modifies app`session
    ensures page == Render(DashboardView([], [Row(1, Budget("food", 300.0, "monthly", 1))], []))
  {
    var txs, budgets, goals := Queries.TransactionsByDate(app.transactions, 1), Queries.BudgetsOf(app.budgets, 1), Queries.GoalsOf(app.goals, 1);
    assert txs == [] && goals == [];
    SingleRow(budgets, Row(1, Budget("food", 300.0, "monthly", 1)));
    page := app.Dashboard();
    assert page == Render(DashboardView(txs, budgets, goals));
  }

  /**
   * A cookie naming user 1 on a database with no users plants a budget for
   * user 1; the next account registered gets key 1 and finds that budget on
   * its dashboard.
   */
  method AdoptedBudgetScenario(kdf: Kdf, parseFloat: string -> Option<real>, salt: string)
    returns (page: Response)
    requires parseFloat("300") == Some(300.0)
    ensures page == Render(DashboardView([], [Row(1, Budget("food", 300.0, "monthly", 1))], []))
  {
    var app := new Routes.App(kdf, parseFloat, Some(1));
    AddFoodBudget(app, 1);
    var _ := app.Logout();
    CarolRegisters(app, salt);
    LogIn(app, "c@x.com", "pw3", 1);
    page := CarolsDashboard(app);
  }
}
