# C# training exercises: Web API stores, filters, JWT roles and design patterns, in Dafny

This project models the core of a set of C# training exercises and proves what the
code promises. It has three parts.

- **ASP.NET Core Web API controllers.**
  - `ValuesController`: a static list of strings.
  - Four `EmployeeController` variants. Each keeps an employee list, finds by `FirstOrDefault`, and assigns new ids as `Max(Id) + 1`.
  - The two filters of the third exercise: a header check and an exception logger.
  - The JWT `AuthController` and the role-protected controller of the fifth exercise.
- **Design-pattern exercises.** Observer, Proxy, Strategy, Command, MVC and dependency injection, plus the Builder, the Factory Method and the Decorator.
- **Shared pieces.** Decimal text and parsing, substring search, `Split`/`Join`, and action results with their status codes.

Where the C# object changes its own fields (the stores, the stock market, the proxy, the
payment context, the remote control, the MVC controller, the builder, the log store) the model
is a Dafny `class`. Its methods have `modifies` clauses and state the whole new state. Code
that only computes a value is a function. Console output is a trace: either a `seq` field
that the methods append to, or the list of lines a function returns. Each trace has a
lemma that reads back what it shows. Examples: the number of charges, the observers updated, the
documents opened, the configuration built.

| module | file | models |
|---|---|---|
| `Http` | http.dfy | `IActionResult` outcomes and their status codes |
| `IdList` | id_list.dfy | `FirstOrDefault`, `Max(Id) + 1` in 32-bit `int`, `Remove`, id distinctness |
| `Text` | text.dfy | `int.ToString`, fixed-width date digits, `Contains`, `Split`/`Join`, prefix stripping, `AppendLine` output |
| `ValuesApi` | values_controller.dfy | exercise 1, `ValuesController` |
| `SwaggerDemoEmployees` | swagger_employees.dfy | exercise 2, `EmployeeController` |
| `EmployeeWebApi` | employee_web_api.dfy | exercise 3, `EmployeeController` |
| `EmployeeWebApiFilters` | filters.dfy | exercise 3, `CustomAuthFilter` and `CustomExceptionFilter` |
| `EmployeeApi` | employee_api.dfy | exercise 4, `EmployeeController` |
| `JwtAuth` | auth.dfy | exercise 5, `AuthController` |
| `JwtEmployees` | jwt_employees.dfy | exercise 5, `EmployeeController` and its `[Authorize]` attributes |
| `StockObserver` | observer.dfy | Observer |
| `ImageProxy` | proxy.dfy | Proxy |
| `PaymentStrategy` | strategy.dfy | Strategy |
| `RemoteCommand` | command.dfy | Command |
| `StudentMvc` | mvc.dfy | MVC |
| `CustomerInjection` | customer_di.dfy | dependency injection |
| `ComputerAssembly` | builder.dfy | Builder |
| `DocumentFactory` | document_factory.dfy | Factory Method |
| `NotifierDecorator` | notifier.dfy | Decorator |

Six pattern exercises exist twice, once under `Week1_DesignPatternsAndPrinciples` and once
under `Week1_DesignPatternsAndPrinciples_HandsOn`. The two copies differ only in comments,
whitespace and line numbers, so one module models both. The table below cites the first
copy. The matching lines in the second copy are:

- **Observer** (`7_ObserverPattern`):
  - `StockMarket` 20-77: constructor 27-32, `CurrentPrice` 35-47, `RegisterObserver` 50-57, `DeregisterObserver` 60-66, `NotifyObservers` 69-76.
  - Observers 80-108.
- **Proxy** (`6_ProxyPattern`):
  - `RealImage` 13-37.
  - `ProxyImage` 40-72: constructor 46-50, `Display` 53-71.
- **Strategy** (`8_StrategyPattern`):
  - `Pay` 28-35 (card) and 51-57 (PayPal).
  - `SetPaymentStrategy` 66-70, `ExecutePayment` 73-83.
- **Command** (`9_CommandPattern`):
  - `Light` 12-30.
  - `Execute` 43-46 and 60-63.
  - `SetCommand` 71-75, `PressButton` 78-89.
- **MVC** (`10_MVCPattern`):
  - `StudentView` 19-30.
  - `SetStudentName` 45-49, `SetStudentGrade` 51-55, getters 57-70, `UpdateView` 72-76.
- **Dependency injection** (`11_DependencyInjection`):
  - Repository constructor 37-46, `FindCustomerById` 49-54.
  - Service constructor 62-66, `GetCustomerDetails` 68-72.

## Model

| member | source | states |
|---|---|---|
| `Http.StatusCode` | Week4-ASP.NETCore8.0WebAPI/3_WebApi_Handson/code/Controllers/EmployeeController.cs:28-109 | Each action outcome's status: exactly `Ok`/`Ok()` are 200, exactly the four success outcomes are 2xx, exactly an escaping exception is 500. |
| `IdList.FirstIndexOf` | Week4-ASP.NETCore8.0WebAPI/2_WebApi_Handson/code/Controllers/EmployeeController.cs:28 | `FirstOrDefault(e => e.Id == id)`: no position exactly when the id is absent; otherwise the first position holding it. |
| `IdList.FindBy` | Week4-ASP.NETCore8.0WebAPI/2_WebApi_Handson/code/Controllers/EmployeeController.cs:28 | `FirstOrDefault(x => x.Id == id)` on records: none exactly when no record has that id; otherwise the first position holding it. Each store's `Find` is this with its own `Id`. |
| `IdList.MaxId` | Week4-ASP.NETCore8.0WebAPI/2_WebApi_Handson/code/Controllers/EmployeeController.cs:46 | `Max(e => e.Id)` on a non-empty list: an element of the list, no smaller than any other. |
| `IdList.Wrap32` | Week4-ASP.NETCore8.0WebAPI/2_WebApi_Handson/code/Controllers/EmployeeController.cs:46 | Unchecked 32-bit `int` arithmetic: the result is an `int`, and an in-range value is unchanged. |
| `IdList.NextId` | Week4-ASP.NETCore8.0WebAPI/2_WebApi_Handson/code/Controllers/EmployeeController.cs:46 | `Max(e => e.Id) + 1`: a fresh id above every stored one below `Int32.MaxValue`, and `Int32.MinValue` when the maximum is `Int32.MaxValue`. |
| `IdList.RemoveAt` | Week4-ASP.NETCore8.0WebAPI/2_WebApi_Handson/code/Controllers/EmployeeController.cs:81 | `List.Remove`/`RemoveAt`: one element fewer, earlier elements in place, later ones shifted down, the removed element the only multiset difference. |
| `IdList.AppendNextIdKeepsDistinct` | Week4-ASP.NETCore8.0WebAPI/2_WebApi_Handson/code/Controllers/EmployeeController.cs:46-47 | Appending a record with the next id keeps every id distinct and within `int`, and the new id is above all the others, while the maximum is below `Int32.MaxValue`. |
| `IdList.RemoveAtKeepsDistinct` | Week4-ASP.NETCore8.0WebAPI/2_WebApi_Handson/code/Controllers/EmployeeController.cs:81 | Removing a record never makes two remaining ids equal. |
| `IdList.WrapAroundRepeatsAnId` | Week4-ASP.NETCore8.0WebAPI/2_WebApi_Handson/code/Controllers/EmployeeController.cs:46 | Once `Int32.MaxValue` is in use the next id wraps round to `Int32.MinValue`, and can repeat an id already stored. |
| `ValuesApi.ValuesController.constructor` | Week4-ASP.NETCore8.0WebAPI/1_WebApi_Handson/code/Controllers/ValuesController.cs:9-12 | The static list starts as Value1, Value2, Value3. |
| `ValuesApi.ValuesController.GetAll` | Week4-ASP.NETCore8.0WebAPI/1_WebApi_Handson/code/Controllers/ValuesController.cs:16-19 | GET returns the whole list with 200. |
| `ValuesApi.ValuesController.Get` | Week4-ASP.NETCore8.0WebAPI/1_WebApi_Handson/code/Controllers/ValuesController.cs:23-30 | 200 with the value exactly when `0 <= id < Count`; otherwise 404 with the message naming the id. |
| `ValuesApi.ValuesController.Post` | Week4-ASP.NETCore8.0WebAPI/1_WebApi_Handson/code/Controllers/ValuesController.cs:34-43 | Null or empty body: 400, list unchanged; otherwise appended, and 201 with the index it landed at and the value stored there. |
| `ValuesApi.ValuesController.Put` | Week4-ASP.NETCore8.0WebAPI/1_WebApi_Handson/code/Controllers/ValuesController.cs:47-61 | Range check first (404), then emptiness (400), then the one index overwritten; length and every other index unchanged. |
| `ValuesApi.ValuesController.Delete` | Week4-ASP.NETCore8.0WebAPI/1_WebApi_Handson/code/Controllers/ValuesController.cs:65-74 | In range: the index removed and later values shifted down, 204; otherwise 404 and no change. |
| `ValuesApi.NotFoundMessageNamesId` | Week4-ASP.NETCore8.0WebAPI/1_WebApi_Handson/code/Controllers/ValuesController.cs:27 | Different ids give different 404 messages. |
| `ValuesApi.PostGetPutDelete` | Week4-ASP.NETCore8.0WebAPI/1_WebApi_Handson/code/Controllers/ValuesController.cs:34-74 | Post, read back, overwrite and delete in turn each see the previous step, leaving the list as it was. |
| `SwaggerDemoEmployees.Overwrite` | Week4-ASP.NETCore8.0WebAPI/2_WebApi_Handson/code/Controllers/EmployeeController.cs:63-65 | Update copies Name, Department and Salary from the body and keeps the stored Id. |
| `SwaggerDemoEmployees.EmployeeController.constructor` | Week4-ASP.NETCore8.0WebAPI/2_WebApi_Handson/code/Controllers/EmployeeController.cs:9-14 | The three seeded employees, with distinct `int` ids. |
| `SwaggerDemoEmployees.EmployeeController.GetAllEmployees` | Week4-ASP.NETCore8.0WebAPI/2_WebApi_Handson/code/Controllers/EmployeeController.cs:18-21 | The whole list with 200. |
| `SwaggerDemoEmployees.EmployeeController.GetEmployeeById` | Week4-ASP.NETCore8.0WebAPI/2_WebApi_Handson/code/Controllers/EmployeeController.cs:26-34 | 200 with the first match exactly when some employee has the id; otherwise a bare 404. |
| `SwaggerDemoEmployees.EmployeeController.CreateEmployee` | Week4-ASP.NETCore8.0WebAPI/2_WebApi_Handson/code/Controllers/EmployeeController.cs:39-49 | Null body: 400. Empty list: `Max` throws. Otherwise the body is appended with the next id and returned as 201; ids stay distinct below `Int32.MaxValue`. |
| `SwaggerDemoEmployees.EmployeeController.UpdateEmployee` | Week4-ASP.NETCore8.0WebAPI/2_WebApi_Handson/code/Controllers/EmployeeController.cs:55-68 | Unknown id: 404. Null body on a match: the property read throws. Otherwise only the match is overwritten and returned; the ids never change. |
| `SwaggerDemoEmployees.EmployeeController.DeleteEmployee` | Week4-ASP.NETCore8.0WebAPI/2_WebApi_Handson/code/Controllers/EmployeeController.cs:73-83 | Unknown id: 404, no change. Otherwise the first match is removed and `Ok()` returned; distinct ids stay distinct. |
| `SwaggerDemoEmployees.DeleteRemovesEveryMatch` | Week4-ASP.NETCore8.0WebAPI/2_WebApi_Handson/code/Controllers/EmployeeController.cs:75-81 | With distinct ids, no employee with the deleted id remains. |
| `EmployeeWebApi.Overwrite` | Week4-ASP.NETCore8.0WebAPI/3_WebApi_Handson/code/Controllers/EmployeeController.cs:83-88 | Update copies every property but Id from the body and keeps the stored Id. |
| `EmployeeWebApi.StandardEmployees` | Week4-ASP.NETCore8.0WebAPI/3_WebApi_Handson/code/Controllers/EmployeeController.cs:111-158 | The standard list has ids 1, 2 and 3. |
| `EmployeeWebApi.EmployeeController.constructor` | Week4-ASP.NETCore8.0WebAPI/3_WebApi_Handson/code/Controllers/EmployeeController.cs:19-22 | Each controller instance starts from its own copy of the standard list. |
| `EmployeeWebApi.EmployeeController.GetStandard` | Week4-ASP.NETCore8.0WebAPI/3_WebApi_Handson/code/Controllers/EmployeeController.cs:28-34 | The instance's list with 200. |
| `EmployeeWebApi.EmployeeController.GetById` | Week4-ASP.NETCore8.0WebAPI/3_WebApi_Handson/code/Controllers/EmployeeController.cs:40-48 | 200 with the first match exactly when some employee has the id; otherwise 404 naming the id. |
| `EmployeeWebApi.EmployeeController.Create` | Week4-ASP.NETCore8.0WebAPI/3_WebApi_Handson/code/Controllers/EmployeeController.cs:54-65 | Null body: 400 "Employee data is required". Otherwise appended with the next id and returned as 201. |
| `EmployeeWebApi.EmployeeController.Update` | Week4-ASP.NETCore8.0WebAPI/3_WebApi_Handson/code/Controllers/EmployeeController.cs:72-93 | Null body checked before the id: 400. Unknown id: 404 naming it. Otherwise only the match is overwritten; the ids never change. |
| `EmployeeWebApi.EmployeeController.Delete` | Week4-ASP.NETCore8.0WebAPI/3_WebApi_Handson/code/Controllers/EmployeeController.cs:99-109 | Unknown id: 404 naming it, no change. Otherwise exactly the first match is removed, 204. |
| `EmployeeWebApi.FreshControllerForgetsChanges` | Week4-ASP.NETCore8.0WebAPI/3_WebApi_Handson/code/Controllers/EmployeeController.cs:17-22 | The list is per instance: a delete through one controller is not seen by the next one, which starts from the standard list again. |
| `EmployeeApi.Target` | Week4-ASP.NETCore8.0WebAPI/4_WebApi_Handson/code/Controllers/EmployeeController.cs:29-38 | The shared guard: a position exactly when the id is positive and present, and then the first match. |
| `EmployeeApi.Overwrite` | Week4-ASP.NETCore8.0WebAPI/4_WebApi_Handson/code/Controllers/EmployeeController.cs:61-64 | Update copies Name, Email, Department and Salary and keeps the stored Id. |
| `EmployeeApi.EmployeeController.constructor` | Week4-ASP.NETCore8.0WebAPI/4_WebApi_Handson/code/Controllers/EmployeeController.cs:11-16 | The three seeded employees, with distinct `int` ids. |
| `EmployeeApi.EmployeeController.GetAllEmployees` | Week4-ASP.NETCore8.0WebAPI/4_WebApi_Handson/code/Controllers/EmployeeController.cs:20-23 | The whole list with 200. |
| `EmployeeApi.EmployeeController.GetEmployee` | Week4-ASP.NETCore8.0WebAPI/4_WebApi_Handson/code/Controllers/EmployeeController.cs:27-41 | 200 with the first match exactly when the id is positive and present; otherwise the single 400 "Invalid employee id". |
| `EmployeeApi.EmployeeController.UpdateEmployee` | Week4-ASP.NETCore8.0WebAPI/4_WebApi_Handson/code/Controllers/EmployeeController.cs:45-68 | Bad or unknown id: that 400. Null body on a match: the property read throws. Otherwise only the match is overwritten; the ids never change. |
| `EmployeeApi.EmployeeController.CreateEmployee` | Week4-ASP.NETCore8.0WebAPI/4_WebApi_Handson/code/Controllers/EmployeeController.cs:72-84 | Null body: 400 "Employee data is required". Empty list: `Max` throws. Otherwise appended with the next id and returned as 201. |
| `EmployeeApi.EmployeeController.DeleteEmployee` | Week4-ASP.NETCore8.0WebAPI/4_WebApi_Handson/code/Controllers/EmployeeController.cs:88-103 | Bad or unknown id: that 400, no change. Otherwise exactly the match is removed, 204. |
| `EmployeeApi.BadAndUnknownIdsLookAlike` | Week4-ASP.NETCore8.0WebAPI/4_WebApi_Handson/code/Controllers/EmployeeController.cs:29-38 | A client cannot tell a non-positive id from an unknown one: the same 400 from Get and Delete, and no change to the list. |
| `EmployeeWebApiFilters.CheckAuthorization` | Week4-ASP.NETCore8.0WebAPI/3_WebApi_Handson/code/Filters/CustomAuthFilter.cs:8-28 | No header: 400 "No Auth token". Otherwise the action runs exactly when "Bearer" occurs somewhere in the value, and else 400 "Bearer unavailable". |
| `EmployeeWebApiFilters.BearerAnywherePasses` | Week4-ASP.NETCore8.0WebAPI/3_WebApi_Handson/code/Filters/CustomAuthFilter.cs:21 | The test is a substring test: "Bearer" anywhere in the header passes. |
| `EmployeeWebApiFilters.BearerCaseMatters` | Week4-ASP.NETCore8.0WebAPI/3_WebApi_Handson/code/Filters/CustomAuthFilter.cs:21 | The test is case-sensitive: "bearer abc" is rejected. |
| `EmployeeWebApiFilters.BearerAloneIsEnough` | Week4-ASP.NETCore8.0WebAPI/3_WebApi_Handson/code/Filters/CustomAuthFilter.cs:20-27 | No token is needed after the word: "Bearer" alone, or after other text, passes. |
| `EmployeeWebApiFilters.RejectionsDiffer` | Week4-ASP.NETCore8.0WebAPI/3_WebApi_Handson/code/Filters/CustomAuthFilter.cs:13-25 | The two rejections carry different messages. |
| `EmployeeWebApiFilters.LogFileName` | Week4-ASP.NETCore8.0WebAPI/3_WebApi_Handson/code/Filters/CustomExceptionFilter.cs:41 | The log file is `exceptions_<yyyyMMdd>.txt`. |
| `EmployeeWebApiFilters.LogFilePerDay` | Week4-ASP.NETCore8.0WebAPI/3_WebApi_Handson/code/Filters/CustomExceptionFilter.cs:41 | Two instants share a log file exactly when they fall on the same calendar day. |
| `EmployeeWebApiFilters.DayStampParts` | Week4-ASP.NETCore8.0WebAPI/3_WebApi_Handson/code/Filters/CustomExceptionFilter.cs:41 | `yyyyMMdd` is eight characters holding year, month and day at fixed places. |
| `EmployeeWebApiFilters.LogEntry` | Week4-ASP.NETCore8.0WebAPI/3_WebApi_Handson/code/Filters/CustomExceptionFilter.cs:42 | The entry is the timestamp, then " - Type: message" on its line, then the stack trace and a blank line. |
| `EmployeeWebApiFilters.LogStore.LogException` | Week4-ASP.NETCore8.0WebAPI/3_WebApi_Handson/code/Filters/CustomExceptionFilter.cs:31-51 | Success: the entry, stamped by the second clock read, is appended to the file named by the first read (created if absent), nothing else changes. Failure: files unchanged, exactly the "Failed to log exception" console line. |
| `EmployeeWebApiFilters.ErrorResult` | Week4-ASP.NETCore8.0WebAPI/3_WebApi_Handson/code/Filters/CustomExceptionFilter.cs:18-26 | Status 500 with the fixed error text, the exception's message and the UTC time. |
| `EmployeeWebApiFilters.ErrorResultHidesTypeAndTrace` | Week4-ASP.NETCore8.0WebAPI/3_WebApi_Handson/code/Filters/CustomExceptionFilter.cs:18-26 | The client sees neither the exception's type nor its stack trace. |
| `EmployeeWebApiFilters.OnException` | Week4-ASP.NETCore8.0WebAPI/3_WebApi_Handson/code/Filters/CustomExceptionFilter.cs:10-29 | Logs once (file named by the first clock read, entry stamped by the second), then installs the 500 result and marks the exception handled, whether or not logging failed; the console gains exactly the failure line, and only on failure. |
| `EmployeeWebApiFilters.FaultThroughFilter` | Week4-ASP.NETCore8.0WebAPI/3_WebApi_Handson/code/Filters/CustomExceptionFilter.cs:10-29 | An action's escaping exception, passed through the filter, reaches the client as 500 carrying that exception's message, and is marked handled. |
| `JwtAuth.FindFirst` | Week4-ASP.NETCore8.0WebAPI/5_WebApi_Handson/code/Controllers/EmployeeController.cs:22-23 | `FindFirst(type)?.Value`: none exactly when no claim has the type; otherwise the value of the first one. |
| `JwtAuth.UserClaims` | Week4-ASP.NETCore8.0WebAPI/5_WebApi_Handson/code/Controllers/AuthController.cs:53-58 | Three claims: the role, the user id as decimal text, and the name `User<id>`. |
| `JwtAuth.GenerateJSONWebToken` | Week4-ASP.NETCore8.0WebAPI/5_WebApi_Handson/code/Controllers/AuthController.cs:48-68 | Issuer mySystem, audience myUsers, the role and id claims, expiring ten minutes after issue, accepted up to and including that instant plus the validator's clock skew; a writer exception propagates. |
| `JwtAuth.GenerateToken` | Week4-ASP.NETCore8.0WebAPI/5_WebApi_Handson/code/Controllers/AuthController.cs:16-27 | 200 with the token and "Token generated successfully"; a writer exception becomes 400 with its message. |
| `JwtAuth.Account` | Week4-ASP.NETCore8.0WebAPI/5_WebApi_Handson/code/Controllers/AuthController.cs:34-43 | Exactly admin/password maps to (1, Admin) and user/password to (2, User); nothing else is accepted. |
| `JwtAuth.Login` | Week4-ASP.NETCore8.0WebAPI/5_WebApi_Handson/code/Controllers/AuthController.cs:30-46 | Wrong credentials: 401 "Invalid credentials". Otherwise 200 with that account's token and "Login successful"; a writer exception escapes as 500. |
| `JwtAuth.FailedLoginsLookAlike` | Week4-ASP.NETCore8.0WebAPI/5_WebApi_Handson/code/Controllers/AuthController.cs:45 | Every rejected login gets the same response. |
| `JwtAuth.UserIdClaimRoundTrip` | Week4-ASP.NETCore8.0WebAPI/5_WebApi_Handson/code/Controllers/AuthController.cs:56 | The UserId claim parses back to the id the token was issued for. |
| `JwtAuth.DistinctUsersDistinctClaims` | Week4-ASP.NETCore8.0WebAPI/5_WebApi_Handson/code/Controllers/AuthController.cs:56-57 | Different user ids give different UserId and Name claims. |
| `JwtEmployees.RolesOf` | Week4-ASP.NETCore8.0WebAPI/5_WebApi_Handson/code/Controllers/EmployeeController.cs:54-103 | Only the two read actions lack a role list; the writes and admin-only need Admin, admin-or-poc needs Admin,POC. |
| `JwtEmployees.Authorize` | Week4-ASP.NETCore8.0WebAPI/5_WebApi_Handson/code/Controllers/EmployeeController.cs:9 | Anonymous callers get 401; a signed-in caller is admitted exactly when the action has no role list or the caller has one of its roles, else 403. |
| `JwtEmployees.AdminOnlyActions` | Week4-ASP.NETCore8.0WebAPI/5_WebApi_Handson/code/Controllers/EmployeeController.cs:54-96 | Create, update, delete and admin-only admit exactly signed-in Admins. |
| `JwtEmployees.AdminOrPocAction` | Week4-ASP.NETCore8.0WebAPI/5_WebApi_Handson/code/Controllers/EmployeeController.cs:103 | admin-or-poc admits a signed-in caller holding Admin or POC. |
| `JwtEmployees.AnyOfTwo` | Week4-ASP.NETCore8.0WebAPI/5_WebApi_Handson/code/Controllers/EmployeeController.cs:103 | A two-role list is satisfied by either role. |
| `JwtEmployees.AdminOrPocRoles` | Week4-ASP.NETCore8.0WebAPI/5_WebApi_Handson/code/Controllers/EmployeeController.cs:103 | "Admin,POC" splits into Admin and POC. |
| `JwtEmployees.ReadActionsNeedOnlyAuthentication` | Week4-ASP.NETCore8.0WebAPI/5_WebApi_Handson/code/Controllers/EmployeeController.cs:19-34 | The two read actions admit exactly signed-in callers. |
| `JwtEmployees.AdminTokenMayCreate` | Week4-ASP.NETCore8.0WebAPI/5_WebApi_Handson/code/Controllers/AuthController.cs:34-37 | The admin login's token carries the Admin role, which may create employees. |
| `JwtEmployees.UserTokenMayOnlyRead` | Week4-ASP.NETCore8.0WebAPI/5_WebApi_Handson/code/Controllers/AuthController.cs:39-42 | The user login's token may list employees but not create them. |
| `JwtEmployees.RequestedByEchoesToken` | Week4-ASP.NETCore8.0WebAPI/5_WebApi_Handson/code/Controllers/EmployeeController.cs:22-28 | For a token this API issued, RequestedBy shows that token's user id and role. |
| `JwtEmployees.Overwrite` | Week4-ASP.NETCore8.0WebAPI/5_WebApi_Handson/code/Controllers/EmployeeController.cs:73-75 | Update copies Name, Position and Department and keeps the stored Id. |
| `JwtEmployees.EmployeeController.constructor` | Week4-ASP.NETCore8.0WebAPI/5_WebApi_Handson/code/Controllers/EmployeeController.cs:12-17 | The three seeded employees, with distinct `int` ids. |
| `JwtEmployees.EmployeeController.GetAllEmployees` | Week4-ASP.NETCore8.0WebAPI/5_WebApi_Handson/code/Controllers/EmployeeController.cs:20-31 | 200 with the message, the caller's id and role, and the whole list. |
| `JwtEmployees.EmployeeController.GetEmployee` | Week4-ASP.NETCore8.0WebAPI/5_WebApi_Handson/code/Controllers/EmployeeController.cs:34-51 | 200 with the first match and the caller exactly when the id is present; otherwise 404 "Employee not found". |
| `JwtEmployees.EmployeeController.CreateEmployee` | Week4-ASP.NETCore8.0WebAPI/5_WebApi_Handson/code/Controllers/EmployeeController.cs:54-61 | Empty list: `Max` throws. Null body: the assignment throws. Otherwise appended with the next id and returned as 201. |
| `JwtEmployees.EmployeeController.UpdateEmployee` | Week4-ASP.NETCore8.0WebAPI/5_WebApi_Handson/code/Controllers/EmployeeController.cs:64-78 | Unknown id: 404. Null body on a match: the property read throws. Otherwise only the match is overwritten; the ids never change. |
| `JwtEmployees.EmployeeController.DeleteEmployee` | Week4-ASP.NETCore8.0WebAPI/5_WebApi_Handson/code/Controllers/EmployeeController.cs:81-92 | Unknown id: 404, no change. Otherwise exactly the match is removed and confirmed. |
| `JwtEmployees.EmployeeController.AdminOnly` | Week4-ASP.NETCore8.0WebAPI/5_WebApi_Handson/code/Controllers/EmployeeController.cs:96-100 | The fixed Admin notice. |
| `JwtEmployees.EmployeeController.AdminOrPoc` | Week4-ASP.NETCore8.0WebAPI/5_WebApi_Handson/code/Controllers/EmployeeController.cs:103-107 | The fixed Admin-or-POC notice. |
| `StockObserver.Observer.constructor` | Week1_DesignPatternsAndPrinciples/7_ObserverPattern/code/Program.cs:113-144 | A mobile or web app observer keeps its kind and name. |
| `StockObserver.Broadcast` | Week1_DesignPatternsAndPrinciples/7_ObserverPattern/code/Program.cs:99-106 | One `Update(stockName, price)` per registered observer, in list order. |
| `StockObserver.BroadcastReachesObservers` | Week1_DesignPatternsAndPrinciples/7_ObserverPattern/code/Program.cs:99-106 | A notification round reaches exactly the registered observers, in registration order. |
| `StockObserver.OccursOnce` | Week1_DesignPatternsAndPrinciples/7_ObserverPattern/code/Program.cs:75-82 | In a duplicate-free list every observer occurs once. |
| `StockObserver.NotifiedOncePerChange` | Week1_DesignPatternsAndPrinciples/7_ObserverPattern/code/Program.cs:57-69 | Each registered observer gets exactly one update per price change; an unregistered one gets none. |
| `StockObserver.RemoveFirst` | Week1_DesignPatternsAndPrinciples/7_ObserverPattern/code/Program.cs:88-94 | `List.Remove`: the list unchanged without the observer; otherwise one element fewer, exactly that one. |
| `StockObserver.RemoveFirstFromNoDuplicates` | Week1_DesignPatternsAndPrinciples/7_ObserverPattern/code/Program.cs:88-94 | From a duplicate-free list, Remove removes the observer altogether and keeps the rest duplicate-free. |
| `StockObserver.StockMarket.constructor` | Week1_DesignPatternsAndPrinciples/7_ObserverPattern/code/Program.cs:46-51 | Stock name and initial price stored, no observers, one announcement. |
| `StockObserver.StockMarket.RegisterObserver` | Week1_DesignPatternsAndPrinciples/7_ObserverPattern/code/Program.cs:75-82 | Appends an observer not yet registered and announces it; a second registration changes nothing. The list stays duplicate-free. |
| `StockObserver.StockMarket.DeregisterObserver` | Week1_DesignPatternsAndPrinciples/7_ObserverPattern/code/Program.cs:88-94 | Afterwards the observer is gone; announced only if it was registered; the rest keep their order. |
| `StockObserver.StockMarket.NotifyObservers` | Week1_DesignPatternsAndPrinciples/7_ObserverPattern/code/Program.cs:99-106 | Announces the count, then one update per observer in order; observers and price unchanged. |
| `StockObserver.StockMarket.SetCurrentPrice` | Week1_DesignPatternsAndPrinciples/7_ObserverPattern/code/Program.cs:57-69 | The same price does nothing; a new one is stored, announced, and broadcast to all observers. |
| `StockObserver.DeregisteredObserverIsSkipped` | Week1_DesignPatternsAndPrinciples/7_ObserverPattern/code/Program.cs:88-106 | After deregistration a price change skips the removed observer and reaches each other one once. |
| `ImageProxy.RealImage.constructor` | Week1_DesignPatternsAndPrinciples/6_ProxyPattern/code/Program.cs:29-43 | Constructing a real image loads it from the server. |
| `ImageProxy.RealImage.Display` | Week1_DesignPatternsAndPrinciples/6_ProxyPattern/code/Program.cs:48-51 | Displays the image, one line. |
| `ImageProxy.DisplayEvents` | Week1_DesignPatternsAndPrinciples/6_ProxyPattern/code/Program.cs:80-98 | A proxy display starts with the call line and ends by displaying the image. |
| `ImageProxy.DisplayEventsCounts` | Week1_DesignPatternsAndPrinciples/6_ProxyPattern/code/Program.cs:80-98 | One proxy display loads exactly when nothing is cached, and displays exactly once. |
| `ImageProxy.SessionLoadsOnce` | Week1_DesignPatternsAndPrinciples/6_ProxyPattern/code/Program.cs:80-98 | However often a proxy is displayed it loads at most once, and displays every time. |
| `ImageProxy.ProxyImage.constructor` | Week1_DesignPatternsAndPrinciples/6_ProxyPattern/code/Program.cs:69-73 | Creating a proxy records the file name and loads nothing. |
| `ImageProxy.ProxyImage.Display` | Week1_DesignPatternsAndPrinciples/6_ProxyPattern/code/Program.cs:80-98 | Creates the real image on the first call only, then reuses it; prints the cache miss or hit, then delegates the display. |
| `ImageProxy.SeparateCaches` | Week1_DesignPatternsAndPrinciples/6_ProxyPattern/code/Program.cs:63 | Two proxies hold separate images: each loads its own once. |
| `PaymentStrategy.TypeName` | Week1_DesignPatternsAndPrinciples/8_StrategyPattern/code/Program.cs:92 | `GetType().Name` tells the two strategies apart. |
| `PaymentStrategy.PayLines` | Week1_DesignPatternsAndPrinciples/8_StrategyPattern/code/Program.cs:38-73 | `Pay` first reports a charge of exactly the amount given. |
| `PaymentStrategy.PayChargesOnce` | Week1_DesignPatternsAndPrinciples/8_StrategyPattern/code/Program.cs:38-73 | One `Pay` charges once, exactly the amount given. |
| `PaymentStrategy.CardSecretsNeverShown` | Week1_DesignPatternsAndPrinciples/8_StrategyPattern/code/Program.cs:38-45 | The card payment's output depends on neither the CVV nor the expiry date. |
| `PaymentStrategy.PayPalPasswordNeverShown` | Week1_DesignPatternsAndPrinciples/8_StrategyPattern/code/Program.cs:67-73 | The PayPal payment's output does not depend on the password. |
| `PaymentStrategy.ExecuteChargesOnce` | Week1_DesignPatternsAndPrinciples/8_StrategyPattern/code/Program.cs:99-109 | With no strategy nothing is charged; with one, exactly one charge of the unchanged amount. |
| `PaymentStrategy.PaymentContext.constructor` | Week1_DesignPatternsAndPrinciples/8_StrategyPattern/code/Program.cs:83 | A new context holds no strategy. |
| `PaymentStrategy.PaymentContext.SetPaymentStrategy` | Week1_DesignPatternsAndPrinciples/8_StrategyPattern/code/Program.cs:89-93 | Stores the strategy and announces its type; a null one is stored and the type read throws before anything is printed. |
| `PaymentStrategy.PaymentContext.ExecutePayment` | Week1_DesignPatternsAndPrinciples/8_StrategyPattern/code/Program.cs:99-109 | Error line without a strategy; otherwise the attempt line then that strategy's `Pay`; the strategy is kept. |
| `PaymentStrategy.LatestStrategyPays` | Week1_DesignPatternsAndPrinciples/8_StrategyPattern/code/Program.cs:89-109 | After two `SetPaymentStrategy` calls only the second strategy pays. |
| `RemoteCommand.Light.constructor` | Week1_DesignPatternsAndPrinciples/9_CommandPattern/code/Program.cs:24-27 | A light keeps its location. |
| `RemoteCommand.ExecuteLines` | Week1_DesignPatternsAndPrinciples/9_CommandPattern/code/Program.cs:57-83 | Executing a command prints one line, beginning with its own light's location. |
| `RemoteCommand.Executions` | Week1_DesignPatternsAndPrinciples/9_CommandPattern/code/Program.cs:108-119 | Counts the command executions a console trace shows. |
| `RemoteCommand.LightLineIsLightLine` | Week1_DesignPatternsAndPrinciples/9_CommandPattern/code/Program.cs:29-37 | Each light line ends in "ON." or "OFF.". |
| `RemoteCommand.PressExecutesOnce` | Week1_DesignPatternsAndPrinciples/9_CommandPattern/code/Program.cs:108-119 | A press with a command executes it exactly once; without one, nothing. |
| `RemoteCommand.OnAndOffDiffer` | Week1_DesignPatternsAndPrinciples/9_CommandPattern/code/Program.cs:29-37 | On and off commands for one light print different lines. |
| `RemoteCommand.RemoteControl.constructor` | Week1_DesignPatternsAndPrinciples/9_CommandPattern/code/Program.cs:93 | A new remote holds no command. |
| `RemoteCommand.RemoteControl.SetCommand` | Week1_DesignPatternsAndPrinciples/9_CommandPattern/code/Program.cs:99-103 | Stores the command and announces its type; a null one is stored and the type read throws. |
| `RemoteCommand.RemoteControl.PressButton` | Week1_DesignPatternsAndPrinciples/9_CommandPattern/code/Program.cs:108-119 | Runs the held command after the button line, or reports none; the command is kept. |
| `RemoteCommand.PressRepeatedly` | Week1_DesignPatternsAndPrinciples/9_CommandPattern/code/Program.cs:99-119 | After setting a command, n presses execute it exactly n times. |
| `StudentMvc.Student.constructor` | Week1_DesignPatternsAndPrinciples/10_MVCPattern/code/Program.cs:11-16 | A student keeps its id, name and grade. |
| `StudentMvc.DetailsRoundTrip` | Week1_DesignPatternsAndPrinciples/10_MVCPattern/code/Program.cs:22-29 | The details block shows exactly the id, name and grade given, in that order. |
| `StudentMvc.DetailsInjective` | Week1_DesignPatternsAndPrinciples/10_MVCPattern/code/Program.cs:22-29 | Different students print different details blocks. |
| `StudentMvc.StudentView.DisplayStudentDetails` | Week1_DesignPatternsAndPrinciples/10_MVCPattern/code/Program.cs:22-29 | Prints the five-line details block. |
| `StudentMvc.StudentController.constructor` | Week1_DesignPatternsAndPrinciples/10_MVCPattern/code/Program.cs:38-42 | The controller holds the given model and view. |
| `StudentMvc.StudentController.SetStudentName` | Week1_DesignPatternsAndPrinciples/10_MVCPattern/code/Program.cs:45-49 | Reports the old and new name, then writes the name into the shared model; id and grade unchanged. |
| `StudentMvc.StudentController.SetStudentGrade` | Week1_DesignPatternsAndPrinciples/10_MVCPattern/code/Program.cs:51-55 | Reports the old and new grade, then writes the grade into the shared model; id and name unchanged. |
| `StudentMvc.StudentController.UpdateView` | Week1_DesignPatternsAndPrinciples/10_MVCPattern/code/Program.cs:73-77 | Announces the refresh, then the view prints the model's current values. |
| `StudentMvc.SetThenShow` | Week1_DesignPatternsAndPrinciples/10_MVCPattern/code/Program.cs:45-77 | Setting name and grade changes the shared model, the getters agree, and the next refresh shows exactly the new values. |
| `CustomerInjection.NewRepository` | Week1_DesignPatternsAndPrinciples/11_DependencyInjection/code/Program.cs:46-55 | The repository is seeded with C101, C102 and C103, each stored under its own id. |
| `CustomerInjection.NewService` | Week1_DesignPatternsAndPrinciples/11_DependencyInjection/code/Program.cs:87-91 | Constructor injection: the service keeps exactly the repository given. |
| `CustomerInjection.FindCustomerById` | Week1_DesignPatternsAndPrinciples/11_DependencyInjection/code/Program.cs:62-67 | A customer exactly when the key is present, the stored one; null otherwise; one search line. |
| `CustomerInjection.GetCustomerDetails` | Week1_DesignPatternsAndPrinciples/11_DependencyInjection/code/Program.cs:98-102 | The request line, then exactly the repository's answer. |
| `CustomerInjection.SeededLookup` | Week1_DesignPatternsAndPrinciples/11_DependencyInjection/code/Program.cs:46-102 | Through the seeded repository, exactly the three seeded ids are found, each as the customer with that id. |
| `CustomerInjection.UnknownIdIsNull` | Week1_DesignPatternsAndPrinciples/11_DependencyInjection/code/Program.cs:62-67 | An unknown id gives null rather than an error. |
| `ComputerAssembly.ConfigurationLines` | Week1_DesignPatternsAndPrinciples_HandsOn/3_BuilderPattern/code/Program.cs:48-63 | `ToString` writes eleven lines between a header and a footer. |
| `ComputerAssembly.RamRoundTrip` | Week1_DesignPatternsAndPrinciples_HandsOn/3_BuilderPattern/code/Program.cs:54 | The RAM line reads back as the amount. |
| `ComputerAssembly.ConfigurationRoundTrip` | Week1_DesignPatternsAndPrinciples_HandsOn/3_BuilderPattern/code/Program.cs:48-63 | All nine properties can be read back from the eleven lines `ToString` appends. |
| `ComputerAssembly.ConfigurationInjective` | Week1_DesignPatternsAndPrinciples_HandsOn/3_BuilderPattern/code/Program.cs:48-63 | Different computers give different line sequences. |
| `ComputerAssembly.ConfigurationTextRoundTrip` | Week1_DesignPatternsAndPrinciples_HandsOn/3_BuilderPattern/code/Program.cs:48-63 | When no text property holds a line break, all nine properties can be read back from the string `ToString` returns. |
| `ComputerAssembly.ConfigurationTextInjective` | Week1_DesignPatternsAndPrinciples_HandsOn/3_BuilderPattern/code/Program.cs:48-63 | Different line-break-free computers give different `ToString` strings. |
| `ComputerAssembly.LineBreakMakesTextAmbiguous` | Week1_DesignPatternsAndPrinciples_HandsOn/3_BuilderPattern/code/Program.cs:54-55 | A line break inside the storage text lets two different computers give the same `ToString` string, so the two lemmas above need their condition. |
| `ComputerAssembly.ComputerBuilder.constructor` | Week1_DesignPatternsAndPrinciples_HandsOn/3_BuilderPattern/code/Program.cs:91-96 | CPU, RAM and storage given; defaults: integrated GPU, no OS, no monitor, no peripherals. |
| `ComputerAssembly.ComputerBuilder.WithGpu` | Week1_DesignPatternsAndPrinciples_HandsOn/3_BuilderPattern/code/Program.cs:101-105 | Sets the GPU only and returns the same builder. |
| `ComputerAssembly.ComputerBuilder.WithOperatingSystem` | Week1_DesignPatternsAndPrinciples_HandsOn/3_BuilderPattern/code/Program.cs:107-111 | Sets the OS only and returns the same builder. |
| `ComputerAssembly.ComputerBuilder.WithMonitor` | Week1_DesignPatternsAndPrinciples_HandsOn/3_BuilderPattern/code/Program.cs:113-117 | Sets the monitor only and returns the same builder. |
| `ComputerAssembly.ComputerBuilder.AddWebcam` | Week1_DesignPatternsAndPrinciples_HandsOn/3_BuilderPattern/code/Program.cs:119-123 | Sets the webcam flag only and returns the same builder. |
| `ComputerAssembly.ComputerBuilder.AddKeyboard` | Week1_DesignPatternsAndPrinciples_HandsOn/3_BuilderPattern/code/Program.cs:125-129 | Sets the keyboard flag only and returns the same builder. |
| `ComputerAssembly.ComputerBuilder.AddMouse` | Week1_DesignPatternsAndPrinciples_HandsOn/3_BuilderPattern/code/Program.cs:131-135 | Sets the mouse flag only and returns the same builder. |
| `ComputerAssembly.ComputerBuilder.Build` | Week1_DesignPatternsAndPrinciples_HandsOn/3_BuilderPattern/code/Program.cs:31-42 | The computer's nine properties are the builder's fields. |
| `ComputerAssembly.OfficeComputer` | Week1_DesignPatternsAndPrinciples_HandsOn/3_BuilderPattern/code/Program.cs:162-166 | The office chain gives that exact computer, showing no webcam and a mouse. |
| `DocumentFactory.CreateDocument` | Week1_DesignPatternsAndPrinciples_HandsOn/HandsOn2_FactoryMethod/code/Program.cs:126-155 | Each factory makes its own kind of document. |
| `DocumentFactory.OperationLineRoundTrip` | Week1_DesignPatternsAndPrinciples_HandsOn/HandsOn2_FactoryMethod/code/Program.cs:26-87 | An operation line reads back as the operation and document that printed it. |
| `DocumentFactory.OperationLineInjective` | Week1_DesignPatternsAndPrinciples_HandsOn/HandsOn2_FactoryMethod/code/Program.cs:26-87 | No two operation and document pairs print the same line. |
| `DocumentFactory.PerformDocumentOperations` | Week1_DesignPatternsAndPrinciples_HandsOn/HandsOn2_FactoryMethod/code/Program.cs:108-119 | Creates the factory's document, and its six lines hold Open, Save and Print of that document in the middle. |
| `DocumentFactory.OperationsInOrder` | Week1_DesignPatternsAndPrinciples_HandsOn/HandsOn2_FactoryMethod/code/Program.cs:108-119 | A run opens, saves and prints one document of the factory's kind, in that order, and nothing else. |
| `DocumentFactory.FactoriesDiffer` | Week1_DesignPatternsAndPrinciples_HandsOn/HandsOn2_FactoryMethod/code/Program.cs:24-72 | The three factories make three different kinds of document. |
| `NotifierDecorator.Channels` | Week1_DesignPatternsAndPrinciples/5_DecoratorPattern/code/Program.cs:20-97 | A chain of decorators is built over an email or SMS base. |
| `NotifierDecorator.Send` | Week1_DesignPatternsAndPrinciples/5_DecoratorPattern/code/Program.cs:22-97 | One line per layer. |
| `NotifierDecorator.SendFollowsChannels` | Week1_DesignPatternsAndPrinciples/5_DecoratorPattern/code/Program.cs:52-97 | Line i is the i-th layer's line, innermost first: the wrapped notifier sends before the decorator. |
| `NotifierDecorator.DecoratorSendsAfterWrapped` | Week1_DesignPatternsAndPrinciples/5_DecoratorPattern/code/Program.cs:72-97 | A decorator's output is the wrapped output followed by exactly one line of its own. |
| `NotifierDecorator.MessageUnchanged` | Week1_DesignPatternsAndPrinciples/5_DecoratorPattern/code/Program.cs:22-97 | Every line carries the message unchanged after its channel's prefix. |
| `NotifierDecorator.AllChannels` | Week1_DesignPatternsAndPrinciples/5_DecoratorPattern/code/Program.cs:127-132 | Slack around SMS around email sends email, SMS, then Slack. |
| `Text.IntToTextRoundTrip` | Week4-ASP.NETCore8.0WebAPI/5_WebApi_Handson/code/Controllers/AuthController.cs:56 | `int.ToString()` text parses back to the integer. |
| `Text.ContainsIff` | Week4-ASP.NETCore8.0WebAPI/3_WebApi_Handson/code/Filters/CustomAuthFilter.cs:21 | `string.Contains` holds exactly when the text occurs at some position. |
| `Text.JoinSplit` | Week4-ASP.NETCore8.0WebAPI/5_WebApi_Handson/code/Controllers/EmployeeController.cs:103 | Splitting a role list on ',' loses nothing: joining gives the text back. |

## Left out

- JWT signing and serialization. A token is modelled by its issuer, audience, claims and expiry, and the signing key and the compact encoding are not modelled. The token writer's possible exception is a parameter.
- The authentication middleware. `[Authorize]` and `[Authorize(Roles = ...)]` are modelled as the decision function `JwtEmployees.Authorize` over the caller's claims. Token validation (signature, issuer, audience, lifetime) is taken as already done; `JwtAuth.Unexpired` states only the lifetime part.
- `JwtEmployees.AdminOrPocRoles`: the framework also trims spaces around each role name. The list "Admin,POC" contains none, so only the split is modelled.
- `JwtAuth.FindFirst`: claim types are matched exactly. The framework matches them case-insensitively, which makes no difference for the three claim types used here.
- ASP.NET model binding and validation. A request body is either `None` (null) or a fully bound record; the `[ApiController]` automatic 400 for unbindable input is not modelled.
- Clocks. `DateTime.Now` and `DateTime.UtcNow` are parameters of the members that read them. The exception filter reads `DateTime.Now` twice, once for the log file's name and once for the entry's stamp, so these are two parameters. Time for token expiry is counted in seconds.
- `JwtAuth.Unexpired`: the validator's clock skew is a parameter. The JwtBearer default of 300 seconds belongs to the middleware's configuration, which is not modelled.
- The file system. The exception log is a map from file name to contents. The `Logs` directory and `Path.Combine` are not modelled, and a failed append is a parameter.
- Concurrency. Concurrent requests on the static lists of exercises 1, 2, 4 and 5 are not modelled; each action runs alone.
- The exercise-3 `Employee`, `Department` and `Skill` classes (`Models/Employee.cs`) are not part of this model. Their fields are taken from the controller's own use of them.
- `CustomAuthFilter` is applied to the whole exercise-3 controller. So it also guards `GetStandard`, whose `[AllowAnonymous]` affects only the authorization middleware. The model keeps the filter as a separate decision, `CheckAuthorization`, that runs before every action.
- `EmployeeWebApiFilters.DayStamp` and `EmployeeWebApiFilters.TimeStamp` render dates as the invariant culture does: Gregorian years, and `:` as the time separator. The C# formats use the current culture, whose calendar can give another year (Thai Buddhist, for example) and whose time separator can differ (`.` under da-DK).
- `Text.IntToText` renders integers as the invariant culture does, with `-` as the minus sign. The C# `{id}`, `userId.ToString()` and `$"User{userId}"` use the current culture's negative sign, which can be U+2212 (sv-SE, for example).
- The currency formatting `{amount:C}` is culture-dependent, so printed amounts stay numbers (`PaymentStrategy.Line.Amount`). `decimal` amounts and salaries are exact reals, with no 28-digit limit.
- `Thread.Sleep` and the remote load in `RealImage` are reduced to their console lines.
- Object identity of created documents. `DocumentFactory.CreateDocument` returns a value, so two calls returning distinct new instances are not distinguished.
- `StringBuilder.AppendLine` ends each line with `Environment.NewLine`, which is taken as "\n" (`ComputerAssembly.ConfigurationText`); the Windows "\r\n" is not modelled.
- `ComputerAssembly.ConfigurationTextRoundTrip` requires that no text property holds a line break. `ComputerAssembly.LineBreakMakesTextAmbiguous` shows that without this condition the string cannot be read back.
- `ComputerAssembly.ConfigurationTextInjective` requires the same of both computers, for the same reason.
- A null id passed to `Dictionary.TryGetValue` (an `ArgumentNullException`) is not modelled. Ids are strings, never null.
- `SMSWrapper` in the Decorator exercise prints exactly what `SMSNotifierWrapper` prints, and is not modelled separately.
- The `Program.Main` demonstration scripts are not modelled. The exceptions are the Builder's office computer (`ComputerAssembly.OfficeComputer`) and the Decorator's three-layer chain (`NotifierDecorator.AllChannels`).
- The `GetStudentId`, `GetStudentName` and `GetStudentGrade` getters are plain field reads (`StudentMvc.StudentController` functions). They are stated through `StudentMvc.SetThenShow`.
