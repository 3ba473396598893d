# EscaShop optical queue: a Dafny model of its core rules

EscaShop is the front desk of an optical shop. Staff sign in, register
customers into a queue, keep the customer records in a Supabase store and
send the waiting customers SMS or e-mail notices through an edge function.
This project models the rules behind those screens and hooks and proves
properties of them:

- **Roles and access.** The role hierarchy of the authentication provider
  (admin > staff > viewer). The demo accounts and the creation of demo
  users. The route guard. The sidebar's role filter. The user-management
  screen's admin gate and its two-step role change.
- **Sign-in page.** The checks on the login and sign-up forms and the three
  sign-in handlers.
- **Customer records.** The new-customer record with its token and OR
  number. The camelCase to snake_case mapping of an update. The
  transformation of a stored row back into a customer. The registration
  form's checks.
- **Notifications.** The request the client sends and how it classifies a
  failure. The edge function's dispatch and responses. The notification
  centre's selection, templates and bulk send. The notification screen's
  lists and buttons.
- **Daily report.** The expense list and the cash-turnover figure.

One Dafny module stands for each source file. `Common` holds the shared
helpers: Option/Result, filtering, subsequences, counting, decimal text and
padding, substring search. `CustomerModel` holds the customer, row and JSON
values shared by the two customer hooks. State that a component or hook
updates in place is a `class` whose methods state the whole new state.
Replies of the store, of the auth service and of the SMS and e-mail
providers are parameters, and so are the clock and the random token draw.

## Model

| member | source | states |
|---|---|---|
| AuthContext.HasRole | src/contexts/AuthContext.tsx:264-277 | no profile grants nothing; an admin is granted every role text; otherwise a role is granted exactly when it is one of the three and at or below the profile's level in admin > staff > viewer |
| AuthContext.GrantsAreNested | src/contexts/AuthContext.tsx:267-274 | whatever a viewer is granted a staff member is granted, and whatever staff is granted an admin is granted |
| AuthContext.UnknownProfileRoleGrantsNothing | src/contexts/AuthContext.tsx:265-276 | a profile whose role is none of the three is granted nothing |
| AuthContext.DemoAccountFor | src/contexts/AuthContext.tsx:167-173 | a pair is a demo account exactly when it is one of the three listed email/password pairs, and its account has a known role |
| AuthContext.ThreeDemoAccounts | src/contexts/AuthContext.tsx:167-173 | there are three demo accounts, with roles among admin, staff and viewer |
| AuthContext.CreateDemoUser | src/contexts/AuthContext.tsx:102-160 | fails exactly when sign-up reports an error that does not mention 'already registered', with that error's message; writes nothing without a user id; otherwise writes exactly the profile upsert and then the role-row upsert for the id, e-mail, name and role |
| AuthContext.SignIn | src/contexts/AuthContext.tsx:162-203 | a pair that is not a demo account gives the sign-in error or success with no writes; a demo pair whose user creation fails gives that failure's message; otherwise the sign-in error, or success with the creation's writes |
| AuthContext.AdminDemoSignInWritesAdminProfile | src/contexts/AuthContext.tsx:167-168 | the admin demo pair on a fresh store upserts an admin profile named System Administrator and an admin role row |
| AuthContext.AlreadyRegisteredTolerated | src/contexts/AuthContext.tsx:119-122 | a sign-up answered 'User already registered' does not fail the demo creation |
| ProtectedRoute.Guard | src/components/ProtectedRoute.tsx:15-65 | a spinner while loading; access denied with no user whatever the role; the children exactly when signed in and either no role is required or it is granted; otherwise the insufficient-permissions card with the required role's label and the current role's label |
| ProtectedRoute.RoleDisplayName | src/components/ProtectedRoute.tsx:38-45 | the three known roles get their labels, any other text is shown as it is |
| ProtectedRoute.CurrentRoleText | src/components/ProtectedRoute.tsx:57 | never empty; the profile's own role when it has one |
| ProtectedRoute.NoUserIgnoresRole | src/components/ProtectedRoute.tsx:23-35 | without a user the screen does not depend on the profile or the required role |
| ProtectedRoute.StaffRoutesAdmitOnlyAdmins | src/components/ProtectedRoute.tsx:37 | a route requiring a role outside the hierarchy admits exactly the admins |
| ProtectedRoute.CashierDeniedCashierPage | src/components/ProtectedRoute.tsx:37-63 | a route requiring 'cashier' shows even a cashier the insufficient-permissions card |
| Sidebar.VisibleSpec | src/components/Sidebar.tsx:24 | an item is shown exactly when it is in the menu and lists the user's role, and the shown items keep the menu's order |
| Sidebar.Visible | src/components/Sidebar.tsx:24 | no more items than the menu, and every shown item lists the user's role |
| Sidebar.AdminSeesEverything | src/components/Sidebar.tsx:14-24 | an admin sees all seven items in order |
| Sidebar.SalesMenu | src/components/Sidebar.tsx:14-24 | sales staff see overview, register and queue |
| Sidebar.CashierMenu | src/components/Sidebar.tsx:14-24 | a cashier sees overview, queue, transactions, reports and activity log |
| Sidebar.OtherRolesSeeNothing | src/components/Sidebar.tsx:14-24 | any other role sees an empty menu |
| Sidebar.BadgeLabel | src/components/Sidebar.tsx:32 | the badge is the role with its first letter upper-cased and the rest unchanged |
| CustomerModel.PrescriptionOf | src/hooks/useCustomerData.ts:34-48 | a stored value that is not an object, an array included, gives the empty prescription; for an object, each of od, os, ou, pd and add is the member's text, missing members as empty text |
| CustomerModel.PaymentInfoOf | src/hooks/useCustomerData.ts:52-60 | the same for the payment info: an array or other non-object gives the empty one; for an object, mode and amount are the members' texts |
| CustomerModel.PrescriptionRoundTrip | src/hooks/useCustomerData.ts:34-48 | reading back a stored prescription gives the prescription |
| CustomerModel.PaymentInfoRoundTrip | src/hooks/useCustomerData.ts:52-60 | reading back a stored payment info gives the payment info |
| CustomerModel.TokenText | src/hooks/useCustomerOperations.ts:30 | a token is 'T-' followed by three digits whose value is the draw |
| CustomerModel.TokenRoundTrip | src/hooks/useCustomerOperations.ts:30 | the draw is recovered from its token |
| CustomerModel.OrNumberText | src/hooks/useCustomerOperations.ts:35 | an OR number is 'OR-' followed by the shortest decimal text of the clock reading: digits whose value is the reading, with no leading zero |
| CustomerModel.OrNumberRoundTrip | src/hooks/useCustomerOperations.ts:35 | the clock reading is recovered from its OR number |
| CustomerModel.FindCustomer | src/components/NotificationSystem.tsx:36 | none exactly when no customer has the id; otherwise the first customer with it |
| CustomerOperations.RenamedColumnsAreSnakeCase | src/hooks/useCustomerOperations.ts:78-88 | every renamed column is the snake_case form of its field name |
| CustomerOperations.SameNamedColumns | src/hooks/useCustomerOperations.ts:91-101 | every directly copied column has its field's own name |
| CustomerOperations.DbUpdatesOf | src/hooks/useCustomerOperations.ts:75-101 | the id column is never written; a column is written exactly when its field is defined, with that field's value |
| CustomerOperations.PartialSpec | src/hooks/useCustomerOperations.ts:78-101 | after the first n assignments the update holds exactly the defined fields among the first n columns, each with its field's value |
| CustomerOperations.BuildDbUpdates | src/hooks/useCustomerOperations.ts:75-101 | the statements build exactly `DbUpdatesOf(u)`: each defined field under its column, and nothing else |
| CustomerOperations.MapRenamedFields | src/hooks/useCustomerOperations.ts:78-88 | the renamed fields are copied in the source's order |
| CustomerOperations.CopyDirectFields | src/hooks/useCustomerOperations.ts:91-101 | the directly mapped fields are added in the source's order |
| CustomerOperations.MapContactFields | src/hooks/useCustomerOperations.ts:78-80 | contact number, sales agent and assigned doctor are set when defined |
| CustomerOperations.MapLensFields | src/hooks/useCustomerOperations.ts:81-83 | grade type, lens type and frame code are set when defined |
| CustomerOperations.MapPaymentFields | src/hooks/useCustomerOperations.ts:84-86 | payment info, priority type and wait time are set when defined |
| CustomerOperations.MapReceiptFields | src/hooks/useCustomerOperations.ts:87-88 | registration time and OR number are set when defined |
| CustomerOperations.CopyNameFields | src/hooks/useCustomerOperations.ts:91-93 | name, email and age are set when defined |
| CustomerOperations.CopyAboutFields | src/hooks/useCustomerOperations.ts:94-96 | address, occupation and distribution are set when defined |
| CustomerOperations.CopyRecordFields | src/hooks/useCustomerOperations.ts:97-99 | prescription, remarks and token are set when defined |
| CustomerOperations.CopyQueueFields | src/hooks/useCustomerOperations.ts:100-101 | priority and status are set when defined |
| CustomerOperations.IdNeverWritten | src/hooks/useCustomerOperations.ts:75-101 | an update with no field but the id writes nothing |
| CustomerOperations.DbUpdatesRoundTrip | src/hooks/useCustomerOperations.ts:78-101 | reading the written columns back gives the update, without its id |
| CustomerOperations.NewCustomerRecord | src/hooks/useCustomerOperations.ts:14-36 | a new record is waiting with wait time 0, and its token and OR number give back the draw and the clock reading |
| CustomerOperations.UpdateCustomerInDatabase | src/hooks/useCustomerOperations.ts:73-123 | the store is sent the mapped update for the id, and the result is true exactly when the store reports no error |
| CustomerOperations.CustomerOperations.AddCustomerToDatabase | src/hooks/useCustomerOperations.ts:11-71 | the new record is sent; the stored row is returned on success and nothing on an error; loading ends false |
| CustomerData.ToCustomer | src/hooks/useCustomerData.ts:23-69 | id, name, e-mail and status are kept, and so are age, address, occupation, distribution, token and priority; each snake_case column becomes its camelCase field; the prescription and payment info are read as their JSON readers say; missing or empty remarks become empty text, present ones are kept |
| CustomerData.ToCustomers | src/hooks/useCustomerData.ts:23-69 | one customer per row, in the rows' order |
| CustomerData.ToCustomersKeepsOrder | src/hooks/useCustomerData.ts:15-69 | the customers are in registration order exactly when the rows are, and each keeps its row's id |
| CustomerData.FetchCustomers | src/hooks/useCustomerData.ts:10-76 | loading ends false; an error keeps the list; otherwise the list is the transformed rows |
| CustomerData.InsertReadsBack | src/hooks/useCustomerOperations.ts:14-36 | a stored new record reads back as a waiting customer with the draft's fields, its token and its OR number |
| CustomerData.UpdateReadsBack | src/hooks/useCustomerOperations.ts:78-106 | applying the mapped update to a row and reading it back is the customer merged with the update |
| CustomerData.MergeIgnoresId | src/hooks/useCustomerOperations.ts:75-101 | an update's id never changes the customer |
| CustomerRegistration.MissingFields | src/components/CustomerRegistration.tsx:87-88 | the missing fields are exactly the empty required ones, in the required fields' order |
| CustomerRegistration.NothingMissing | src/components/CustomerRegistration.tsx:87-90 | nothing is missing exactly when name, contact number, email, age and address are all filled |
| CustomerRegistration.OptionalFieldsIgnored | src/components/CustomerRegistration.tsx:87-88 | forms that agree on the required fields miss the same fields |
| CustomerRegistration.AlphaNumericOnly | src/components/CustomerRegistration.tsx:100 | the pattern accepts exactly non-empty text of ASCII letters and digits |
| CustomerRegistration.FrameCodeAccepted | src/components/CustomerRegistration.tsx:100-107 | a frame code passes exactly when every character is an ASCII letter or digit, so an empty one passes |
| CustomerRegistration.SubmitDecision | src/components/CustomerRegistration.tsx:83-118 | missing fields are reported first, then a bad frame code; a registration's token and OR number give back the draw and the clock reading |
| CustomerRegistration.RegistrationForm.HandleSubmit | src/components/CustomerRegistration.tsx:83-146 | the outcome is the decision on the form; a registration resets the form, a rejection keeps it |
| AuthPage.LoginCheck | src/pages/Auth.tsx:55-58 | the login form passes exactly when both fields are filled |
| AuthPage.SignupCheck | src/pages/Auth.tsx:75-83 | the required-fields message exactly when a required field is empty; the mismatch message exactly when they are filled and the passwords differ; otherwise no message |
| AuthPage.SignupDisabled | src/pages/Auth.tsx:278 | the sign-up button is disabled whenever loading or the two passwords differ, even with a required field empty; an enabled button means no password-mismatch message; a form the check accepts enables it when not loading |
| AuthPage.ErrorText | src/pages/Auth.tsx:65-67 | a thrown error's own message, or the fallback when it has none |
| AuthPage.AuthForm.HandleLogin | src/pages/Auth.tsx:52-71 | a rejected form only sets the message; otherwise sign-in runs, its error is shown or the page moves on, and loading ends false |
| AuthPage.AuthForm.HandleSignup | src/pages/Auth.tsx:73-95 | a rejected form only sets the check's message; otherwise sign-up runs, its error is shown, and loading ends false |
| AuthPage.AuthForm.HandleDemoLogin | src/pages/Auth.tsx:37-50 | the login form takes the demo pair, sign-in runs without the check, and the page moves on exactly when no error is thrown |
| TransactionReport.TotalRevenue | src/components/TransactionReport.tsx:26-45 | the total is the left fold, from 0, of cash, GCash, Maya, credit card and bank transfer in that order; with non-negative modes it is at least each mode |
| TransactionReport.AmountOf | src/components/TransactionReport.tsx:44-51 | blank or unreadable text counts as 0, otherwise its parsed value |
| TransactionReport.TotalExpenses | src/components/TransactionReport.tsx:46 | the expenses are the left fold, from 0, of the lines' amounts in order |
| TransactionReport.CashTurnover | src/components/TransactionReport.tsx:44-51 | the starting cash plus the revenue, minus the expenses, minus the closing cash, each blank or unreadable amount counting as 0 |
| TransactionReport.TurnoverAfterAppend | src/components/TransactionReport.tsx:44-51 | appending an expense line lowers the turnover by that line's amount |
| TransactionReport.BlankLineAddsNothing | src/components/TransactionReport.tsx:34-36 | a line with a blank amount adds nothing to the expenses |
| TransactionReport.TotalAfterUpdate | src/components/TransactionReport.tsx:38-51 | replacing one line changes the expenses by the difference of the two amounts |
| TransactionReport.BlankFormTurnover | src/components/TransactionReport.tsx:26-51 | on a blank form the turnover is the day's revenue, 21000 |
| TransactionReport.WithField | src/components/TransactionReport.tsx:38-42 | only the named field takes the new text |
| TransactionReport.ReportForm.AddExpense | src/components/TransactionReport.tsx:34-36 | a blank line is appended and the turnover does not move |
| TransactionReport.ReportForm.UpdateExpense | src/components/TransactionReport.tsx:38-42 | only the line at the index changes, in only the named field, and a description edit leaves the turnover unchanged |
| UserManagement.ViewFor | src/components/UserManagement.tsx:159-170 | the management view exactly when the profile's role is admin |
| UserManagement.RoleDisplayName | src/components/UserManagement.tsx:150-157 | admin, sales_employee and cashier get the labels Admin, Sales Employee and Cashier; any other text is shown as it is |
| UserManagement.CreateCheck | src/components/UserManagement.tsx:97-104 | a form passes exactly when email, password and full name are filled |
| UserManagement.SignUpRequestOf | src/components/UserManagement.tsx:107-117 | sign-up is sent the form's email, password and full name |
| UserManagement.UserManagementState.FetchUsers | src/components/UserManagement.tsx:41-61 | the store's rows or, on an error, the old list with an error toast; loading ends false |
| UserManagement.UserManagementState.CreateUser | src/components/UserManagement.tsx:96-139 | a rejected form sends nothing; a successful sign-up resets the form, closes the dialog and fetches again; a failed one shows its message and keeps the form |
| UserManagement.UserManagementState.UpdateUserRole | src/components/UserManagement.tsx:63-94 | the profile role is written first and the role row only if that succeeded; the list is fetched again exactly when both succeed |
| NotificationCenter.Toggled | src/components/NotificationCenter.tsx:138-144 | a selected id is removed and the others are kept in order; an unselected id is appended |
| NotificationCenter.ToggleTwice | src/components/NotificationCenter.tsx:138-144 | toggling an unselected id twice restores the selection |
| NotificationCenter.AllIds | src/components/NotificationCenter.tsx:146-148 | every customer's id, in order |
| NotificationCenter.ToggledTemplates | src/components/NotificationCenter.tsx:178-182 | templates with the id have `enabled` flipped, the rest are unchanged |
| NotificationCenter.ToggleTemplateTwice | src/components/NotificationCenter.tsx:178-182 | toggling a template twice restores the list |
| NotificationCenter.SaveTemplate | src/components/NotificationCenter.tsx:154-176 | a draft without name or message changes nothing; otherwise it is appended under the shortest decimal text of the clock reading (no leading zero) and the draft is cleared |
| NotificationCenter.EnabledTemplates | src/components/NotificationCenter.tsx:301 | the picker offers exactly the enabled templates, in order |
| NotificationCenter.InitialOffer | src/components/NotificationCenter.tsx:29-51 | of the initial templates, Queue Ready and Wait Time Update are offered |
| NotificationCenter.FindTemplate | src/components/NotificationCenter.tsx:73 | none exactly when no template has the id; otherwise the first template with it |
| NotificationCenter.MissingSenderFailsEveryone | src/components/NotificationCenter.tsx:27 | as written, a send returns normally only when the customer or the template is unknown |
| NotificationCenter.WorkingSenderCounts | src/components/NotificationCenter.tsx:71-98 | with a working sender, a known customer counts as sent exactly when the send succeeds |
| NotificationCenter.MissingSenderNoSuccess | src/components/NotificationCenter.tsx:100-136 | as written, a bulk send to known customers reports no success |
| NotificationCenter.NotificationCenterState.SendBulkNotifications | src/components/NotificationCenter.tsx:100-136 | nothing happens without a template or a selection; otherwise every selected id is tried once, the successes are the ids whose send returns, the counts add up to the selection and the selection is cleared |
| NotificationCenter.NotificationCenterState.ToggleCustomerSelection | src/components/NotificationCenter.tsx:138-144 | the selection becomes the toggled selection, nothing else changes |
| NotificationCenter.NotificationCenterState.SelectAllCustomers | src/components/NotificationCenter.tsx:146-148 | the selection becomes every customer's id |
| NotificationCenter.NotificationCenterState.ClearSelection | src/components/NotificationCenter.tsx:150-152 | the selection becomes empty |
| NotificationCenter.NotificationCenterState.ToggleTemplate | src/components/NotificationCenter.tsx:178-182 | the templates become the toggled templates |
| NotificationCenter.NotificationCenterState.SaveTemplateAt | src/components/NotificationCenter.tsx:154-176 | templates and draft become the saved ones |
| Notifications.InvokeBody | src/hooks/useNotifications.ts:25-35 | the request carries the customer's id, name, phone, e-mail, token and wait, and the kind |
| Notifications.Classify | src/hooks/useNotifications.ts:50-55 | not configured exactly when the message mentions 'credentials not configured'; missing contact exactly when it does not but mentions 'required' |
| Notifications.EdgeErrorsClassified | src/hooks/useNotifications.ts:50-55 | Classify applied to the edge function's error texts: Twilio's not-configured text reads as not configured, the phone-required and e-mail-required texts as missing contact, the Resend and invalid-type texts as other failures |
| Notifications.EmailErrorClassified | src/hooks/useNotifications.ts:50-55 | the e-mail-required text does not mention 'credentials not configured' but does mention 'required', so it reads as missing contact |
| Notifications.FailureMessage | src/hooks/useNotifications.ts:50-55 | not configured: the upper-cased kind followed by ' service not configured. Please add API keys in settings.'; missing contact: the phone or e-mail missing text by kind; any other failure: 'Failed to send ', the kind and ' notification' |
| Notifications.NotificationsHook.SendNotification | src/hooks/useNotifications.ts:20-67 | the request body is built from the customer; data means sent, an error gives its classified message; loading ends false |
| Notifications.NotificationsHook.SendBulkNotifications | src/hooks/useNotifications.ts:69-94 | every customer is tried once in order, the successes are counted, the counts add up, loading ends false |
| NotificationSystem.NeedingNotification | src/components/NotificationSystem.tsx:31-33 | exactly the waiting customers with a positive wait, in order |
| NotificationSystem.BulkSmsDisabled | src/components/NotificationSystem.tsx:133 | the bulk SMS button is disabled exactly while loading, with SMS off, or when no customer is waiting with a positive wait |
| NotificationSystem.BulkEmailDisabled | src/components/NotificationSystem.tsx:142 | the same with the e-mail switch |
| NotificationSystem.NobodyToNotify | src/components/NotificationSystem.tsx:31-33 | the list to notify is empty exactly when no customer is waiting with a positive wait |
| NotificationSystem.SmsButtonDisabled | src/components/NotificationSystem.tsx:189 | a customer's SMS button is enabled exactly when not loading, SMS is on and the customer has a contact number |
| NotificationSystem.EmailButtonDisabled | src/components/NotificationSystem.tsx:198 | a customer's e-mail button is enabled exactly when not loading, e-mail is on and the customer has an address |
| NotificationSystem.EnabledButtonsPassContactCheck | src/components/NotificationSystem.tsx:189-198 | a send from an enabled button is never refused by the edge function for a missing phone number or address |
| NotificationSystem.AsNotifyCustomers | src/components/NotificationSystem.tsx:48 | the listed customers as the hook receives them, one for one |
| NotificationSystem.HandleSendNotification | src/components/NotificationSystem.tsx:35-44 | an unknown id sends nothing; otherwise the first customer with the id is sent to and loading ends false |
| NotificationSystem.HandleBulkNotifications | src/components/NotificationSystem.tsx:46-52 | the bulk send goes to exactly the customers needing notification |
| SendNotification.SmsTextShows | supabase/functions/send-notification/index.ts:125 | the SMS shows the token and the wait as m:ss |
| SendNotification.EmailTextShows | supabase/functions/send-notification/index.ts:134 | the e-mail text shows the token and the wait as m:ss |
| SendNotification.SubjectReadsBack | supabase/functions/send-notification/index.ts:133 | the subject holds the token between its fixed prefix and suffix |
| SendNotification.Dispatch | supabase/functions/send-notification/index.ts:120-139 | sms takes the SMS branch, email the e-mail branch, any other kind is refused with the invalid-type error; only those two kinds send |
| SendNotification.SmsDispatch | supabase/functions/send-notification/index.ts:121-127 | no phone: the phone error; no Twilio credentials: the not-configured error; otherwise the SMS to the phone with the greeting, token and m:ss wait text |
| SendNotification.EmailDispatch | supabase/functions/send-notification/index.ts:129-136 | no address: the e-mail error; no Resend key: its error; otherwise the e-mail to the address with the token's subject and the greeting, token and m:ss wait text |
| SendNotification.Handler | supabase/functions/send-notification/index.ts:108-188 | a preflight gets the CORS headers only; status 200 exactly with a success body and 500 exactly with a failure body; dispatch errors and provider refusals become failure bodies; a failed log still succeeds |
| WaitText.JsRemainder | supabase/functions/send-notification/index.ts:125 | the remainder agrees with the mathematical one for a non-negative wait and is non-positive for a negative wait |
| WaitText.JsRemainderOdd | supabase/functions/send-notification/index.ts:125 | negating the wait negates the remainder |
| WaitText.SecondsText | src/components/NotificationSystem.tsx:181 | the padded seconds are two digits whose value is the seconds |
| WaitText.WaitRoundTrip | src/components/NotificationSystem.tsx:181 | the m:ss text of a non-negative wait reads back as that wait |

## Left out

- Network, store and provider calls (Supabase auth, tables and functions, Twilio, Resend, `fetch`) are replaced by their replies, given as parameters.
- The clock (`Date.now()`) and the random token draw are parameters. The draw is required to be below 1000, as `Math.floor(Math.random() * 1000)` is.
- React rendering, toasts other than the texts the handlers choose, console logging and the activity-log inserts are not modelled.
- The realtime channel and the profile listener of the authentication provider are not modelled.
- The customer context is not modelled: the customer list is an input.
- Async interleavings are not modelled. Each handler runs to completion before the next, so `loading` flags are only seen before and after a call.
- The HTML body of the notification e-mail is not modelled, only its subject and text.
- Timestamps are integers of milliseconds. `new Date(...)` parsing is not modelled.
- JSON columns are maps from member names to strings. Members of other types are not modelled.
- Amounts are Dafny reals. `parseFloat` is a parameter, and floating-point rounding is not modelled.
- Wait times are unbounded integers. JavaScript's floating-point numbers are not modelled.
- The queue scheduling, the display monitor and the transaction logs are not part of this model.
- Notifications.EdgeErrorsClassified: the message of an `InvokeReply` error is taken to be the edge function's error text; how the supabase-js client wraps a non-2xx answer is not part of this model.
- Every member of a request body (`SendNotification.RequestBody`) is taken to be present, the text ones as text. In the source a missing `customerName` or `token` is `undefined` and is written as the word "undefined" into the SMS and e-mail texts; the model has no such value.
- Common.Upper and Common.UpperChar upper-case ASCII letters only. JavaScript's `toUpperCase` also maps other Unicode letters, some to two characters (ß to SS). The model is exact for the role and kind texts the source passes.
- TransactionReport.ReportForm.UpdateExpense: requires the index to be a line on screen; the inputs never call it otherwise.
- AuthPage.AuthForm.HandleLogin: the move to the dashboard is a returned flag, not a navigation.
- AuthPage.AuthForm.HandleSignup: the arguments passed to `signUp` are not stated.
- WaitText.ParseWait is a reference inverse of the m:ss text; the source has no parser.

## Findings

| source | as written | input that shows it | evidently intended | confidence | as-written member | corrected member |
|---|---|---|---|---|---|---|
| src/components/NotificationCenter.tsx:27 | the centre takes `sendSMSNotification` from `useNotifications`, which returns no such member, so line 78 calls `undefined` and throws for every known customer | any bulk send with a known template to a known customer: the success count is 0 | send through the hook's working sender, so a known customer counts as sent exactly when the send succeeds | not executed | NotificationCenter.MissingSenderNoSuccess | NotificationCenter.WorkingSenderCounts |
