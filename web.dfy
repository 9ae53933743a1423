/**
 * What a handler receives and returns, shared by both revisions of the
 * application: the request method, the submitted form, the outcome (a redirect
 * with an optional flash message, a rendered page, a 404 or a 400), the flash
 * texts both revisions use, and the checks the add handlers' `try` blocks
 * perform on a submitted form.
 */
module Web {
  import opened Wrappers
  import opened Store
  import opened Models

  datatype Verb = Get | Post

  /** The submitted form fields. */
  type Form = map<string, string>

  /** The pages a handler redirects to or renders. */
  datatype Page = LoginPage | RegisterPage | DashboardPage | AddTransactionPage | AddBudgetPage | AddSavingsGoalPage

  datatype View =
    | FormView(page: Page)
    | DashboardView(transactions: seq<Row<Transaction>>, budgets: seq<Row<Budget>>, goals: seq<Row<SavingsGoal>>)

  /** `redirect(...)` after an optional `flash(...)`, `render_template(...)`, a 404 from `get_or_404`, or a 400 from a missing form field. */
  datatype Response =
    | Redirect(target: Page, flash: Option<string>)
    | Render(view: View)
    | NotFound
    | BadRequest

  const UnknownUserMessage: string := "Benutzer existiert nicht."
  const WrongPasswordMessage: string := "Falsches Passwort."
  const LoggedInMessage: string := "Erfolgreich eingeloggt!"
  const AccountTakenMessage: string := "Benutzername oder Email bereits vergeben."
  const LoggedOutMessage: string := "Erfolgreich abgemeldet"
  const PleaseLogInMessage: string := "Bitte melde dich an"
  const UserGoneMessage: string := "Benutzer nicht gefunden. Bitte melde dich erneut an."
  const PleaseLogInToDeleteMessage: string := "Bitte melde dich an."
  const AccessDeniedMessage: string := "Zugriff verweigert."

  const LogInToAddTransactionMessage: string := "Bitte melde dich an, um eine Transaktion hinzuzufügen."
  const TransactionAddedMessage: string := "Transaktion hinzugefügt!"
  const AddTransactionFailedMessage: string := "Fehler beim Hinzufügen der Transaktion."
  const TransactionDeletedMessage: string := "Transaktion gelöscht!"

  const LogInToAddBudgetMessage: string := "Bitte melde dich an, um ein Budget hinzuzufügen."
  const BudgetAddedMessage: string := "Budget hinzugefügt!"
  const AddBudgetFailedMessage: string := "Fehler beim Hinzufügen des Budgets."
  const BudgetDeletedMessage: string := "Budget gelöscht!"

  const LogInToAddGoalMessage: string := "Bitte melde dich an, um ein Sparziel hinzuzufügen."
  const GoalAddedMessage: string := "Sparziel erfolgreich hinzugefügt!"
  const AddGoalFailedMessage: string := "Fehler beim Hinzufügen des Sparziels."
  const GoalDeletedMessage: string := "Sparziel gelöscht!"

  /** The login form has both fields `request.form[...]` reads (otherwise Flask answers 400). */
  predicate LoginFormComplete(form: Form)
  {
    "email" in form && "password" in form
  }

  /** The registration form has all three fields (otherwise Flask answers 400). */
  predicate RegisterFormComplete(form: Form)
  {
    "username" in form && "email" in form && "password" in form
  }

  /** The fields the login page submits. */
  function LoginForm(email: string, password: string): Form
  {
    map["email" := email, "password" := password]
  }

  /** The fields the registration page submits. */
  function RegisterForm(username: string, email: string, password: string): Form
  {
    map["username" := username, "email" := email, "password" := password]
  }

  /** The transaction form has every field and its amount parses as a float. */
  predicate TransactionFormOk(form: Form, parseFloat: string -> Option<real>)
  {
    && "amount" in form && parseFloat(form["amount"]).Some?
    && "category" in form && "transaction_type" in form && "frequency" in form
  }

  /** The record `add_transaction` builds: the submitted fields, owned by `uid`, dated `now`. */
  function TransactionFromForm(form: Form, parseFloat: string -> Option<real>, uid: nat, now: int): (t: Transaction)
    requires TransactionFormOk(form, parseFloat)
    ensures t.userId == uid && t.date == now
    ensures parseFloat(form["amount"]) == Some(t.amount) && t.frequency == Some(form["frequency"])
  {
    Transaction(parseFloat(form["amount"]).value, form["category"], form["transaction_type"], Some(form["frequency"]), now, uid)
  }

  /** The fields the transaction page submits. */
  function TransactionForm(amount: string, category: string, kind: string, frequency: string): Form
  {
    map["amount" := amount, "category" := category, "transaction_type" := kind, "frequency" := frequency]
  }

  /**
   * Any transaction with a frequency can be entered through the form: submitting
   * its fields, with an amount text that parses to its amount, builds it back.
   */
  lemma TransactionFormRoundTrip(t: Transaction, amountText: string, parseFloat: string -> Option<real>)
    requires t.frequency.Some? && parseFloat(amountText) == Some(t.amount)
    ensures var form := TransactionForm(amountText, t.category, t.transactionType, t.frequency.value);
      && TransactionFormOk(form, parseFloat)
      && TransactionFromForm(form, parseFloat, t.userId, t.date) == t
  {
  }

  /** The budget form has every field and its amount parses as a float. */
  predicate BudgetFormOk(form: Form, parseFloat: string -> Option<real>)
  {
    "category" in form && "amount" in form && parseFloat(form["amount"]).Some? && "period" in form
  }

  /** The record `add_budget` builds: the submitted fields, owned by `uid`. */
  function BudgetFromForm(form: Form, parseFloat: string -> Option<real>, uid: nat): (b: Budget)
    requires BudgetFormOk(form, parseFloat)
    ensures b.userId == uid && parseFloat(form["amount"]) == Some(b.amount)
  {
    Budget(form["category"], parseFloat(form["amount"]).value, form["period"], uid)
  }

  /** The fields the budget page submits. */
  function BudgetForm(category: string, amount: string, period: string): Form
  {
    map["category" := category, "amount" := amount, "period" := period]
  }

  /** Any budget can be entered through the form. */
  lemma BudgetFormRoundTrip(b: Budget, amountText: string, parseFloat: string -> Option<real>)
    requires parseFloat(amountText) == Some(b.amount)
    ensures var form := BudgetForm(b.category, amountText, b.period);
      && BudgetFormOk(form, parseFloat)
      && BudgetFromForm(form, parseFloat, b.userId) == b
  {
  }

  /** The savings-goal form has both fields and its target parses as a float. */
  predicate GoalFormOk(form: Form, parseFloat: string -> Option<real>)
  {
    "name" in form && "target_amount" in form && parseFloat(form["target_amount"]).Some?
  }

  /** The record `add_savings_goal` builds: `current_amount` is left at its column default 0. */
  function GoalFromForm(form: Form, parseFloat: string -> Option<real>, uid: nat, now: int): (g: SavingsGoal)
    requires GoalFormOk(form, parseFloat)
    ensures g.userId == uid && g.dateCreated == now && g.currentAmount == 0.0
    ensures parseFloat(form["target_amount"]) == Some(g.targetAmount)
  {
    SavingsGoal(form["name"], parseFloat(form["target_amount"]).value, 0.0, now, uid)
  }

  /** The fields the savings-goal page submits. */
  function GoalForm(name: string, target: string): Form
  {
    map["name" := name, "target_amount" := target]
  }

  /** Any savings goal with nothing saved yet can be entered through the form. */
  lemma GoalFormRoundTrip(g: SavingsGoal, targetText: string, parseFloat: string -> Option<real>)
    requires g.currentAmount == 0.0 && parseFloat(targetText) == Some(g.targetAmount)
    ensures var form := GoalForm(g.name, targetText);
      && GoalFormOk(form, parseFloat)
      && GoalFromForm(form, parseFloat, g.userId, g.dateCreated) == g
  {
  }
}
