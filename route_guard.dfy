/** The web client's route guard (`ProtectedRoute`): given whether a customer session and an
    employee session are present, and whether the route is for employees, either render the page
    or navigate elsewhere (replacing the history entry). The checks run in a fixed order, so a
    session of the other kind is turned away before a missing session is sent to a login page. */
module RouteGuard {
  const EmployeePortal := "/employee-portal"
  const Dashboard := "/dashboard"
  const LoginPage := "/login"
  const EmployeeLoginPage := "/employee-login"

  datatype RouteKind = CustomerRoute | EmployeeRoute

  /** Render the children, or navigate to `to`; `keepsOrigin` when the current location travels
      along as `state.from` so the login page can return to it. */
  datatype Decision = Render | Redirect(to: string, keepsOrigin: bool)

  function Decide(isCustomer: bool, isEmployee: bool, route: RouteKind): (d: Decision)
    // an employee session never sees a customer page, a customer session never an employee page,
    // and either wins over the login redirect when both sessions are present
    ensures isEmployee && route == CustomerRoute ==> d == Redirect(EmployeePortal, false)
    ensures isCustomer && route == EmployeeRoute ==> d == Redirect(Dashboard, false)
    // a missing session of the route's own kind goes to that kind's login page
    ensures route == CustomerRoute && !isCustomer && !isEmployee ==> d == Redirect(LoginPage, true)
    ensures route == EmployeeRoute && !isEmployee && !isCustomer ==> d == Redirect(EmployeeLoginPage, true)
    // a page renders exactly under a session of its own kind and no session of the other kind
    ensures d == Render <==>
              (route == EmployeeRoute && isEmployee && !isCustomer)
              || (route == CustomerRoute && isCustomer && !isEmployee)
  {
    var employeeProtected := route == EmployeeRoute;
    if isEmployee && !employeeProtected then Redirect(EmployeePortal, false)
    else if isCustomer && employeeProtected then Redirect(Dashboard, false)
    else if !employeeProtected && !isCustomer then Redirect(LoginPage, true)
    else if employeeProtected && !isEmployee then Redirect(EmployeeLoginPage, true)
    else Render
  }
}
