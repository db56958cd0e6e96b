# PERN-ERP account, session and purchasing rules in Dafny

This project models the rule-bearing core of PERN-ERP, a small ERP application
with an Express/PostgreSQL server and a React client, and proves properties of
that model. It covers:

- **Server credential logic.**
  - Signup (field validation, the one-time bootstrap administrator, the duplicate-email rejection, one insert).
  - Login (identical 401 answers, a projection without the password hash, token expiry in milliseconds).
  - The administrative password-reset initiation (a 64-character lowercase hex token and a 24-hour expiry, stored before the mail goes out).
- **The client session.** Three localStorage entries (`accessToken`, `tokenExpiresAt`, `user`) and the App's in-memory `user`. The model covers:
  - the synchronous start-up check;
  - logout;
  - what a login answer writes;
  - the Home component's expiry effect and its timer.
- **Client forms.**
  - Login, signup and reset-password handlers, with their ordered checks and payloads.
  - The user-edit diff that builds a PATCH payload of the changed fields only.
  - The per-user reset-link status map.
- **The purchase cart.** A quantity map with delete-on-zero, the order lines, the stock increment after a successful order, and the order summary.
- **Helpers and server assembly.**
  - The sidebar's string helpers: initials, icon choice, role names and profile fallbacks.
  - The server's hardware query assembly and the inline-update column whitelist.

The source's objects whose state changes in place are classes:

- the users table (`AuthRoutes.Database`);
- the browser's storage and user (`App.Browser`);
- each page component's state;
- the hardware table.

Their handlers are methods with `modifies` clauses and full post-states. Pure map, filter and sort chains are functions with lemmas. Foreign calls become parameters of the members that use them:

- bcrypt hashing and comparison;
- jsonwebtoken signing and decoding;
- `crypto.randomBytes`;
- nodemailer;
- `Date.now()`;
- `JSON.parse` and `JSON.stringify`;
- database failures;
- the answer of every HTTP request.

Modules, one per source file, plus three helper modules:

| module | file | models |
|---|---|---|
| `Strings` | strings.dfy | JavaScript string operations: trim, upper case, slice, includes, split/join, digits |
| `Js` | js.dfy | JSON values, truthiness, `Number`, `parseInt`, `String`, HTTP answers |
| `Hex` | hex.dfy | lowercase base16 as in section 8 of RFC 4648 |
| `AuthRoutes` | auth_routes.dfy | server/authRoutes.js |
| `UserRoutes` | user_routes.dfy | server/userRoutes.js |
| `PurchasingRoutes` | purchasing_routes.dfy | server/purchasing.js |
| `App` | app.dfy | client/src/App.jsx |
| `Home` | home.dfy | client/src/components/Home.jsx |
| `Login` | login.dfy | client/src/components/Login.jsx |
| `ResetPassword` | reset_password.dfy | client/src/features/Auth/ResetPassword.jsx |
| `Signup` | signup.dfy | client/src/features/Auth/Signup.jsx |
| `Users` | users.dfy | client/src/features/Users/Users.jsx |
| `Purchasing` | purchasing.dfy | client/src/features/Purchasing/Purchasing.jsx |
| `Sidebar` | sidebar.dfy | client/src/components/Sidebar.jsx |

## Model

| member | source | states |
|---|---|---|
| AuthRoutes.AdminRoleId | server/authRoutes.js:66-73 | None exactly when no role row is named 'System Administrator'; otherwise the id of such a row |
| AuthRoutes.FullName | server/authRoutes.js:53 | the stored name is firstName, one space, lastName, and both halves can be read back |
| AuthRoutes.Signup | server/authRoutes.js:44-110 | any falsy field or a password under 6 characters gives 400 and no change. A taken email gives 409 and no change. Otherwise exactly one row is inserted under the next id, with hash(password) and the joined name. Its role is the administrator role exactly when the table was empty and such a role exists, with the matching message, and the answer is 201 with the new id. No two accounts ever share an email |
| AuthRoutes.BootstrapHappensOnce | server/authRoutes.js:63-74 | of two successful signups in a row, the second is never elevated |
| AuthRoutes.TokenClaims | server/authRoutes.js:18-23 | sub, role and email are the user's id, role and email; exp is one hour after iat, and iat is the current second |
| AuthRoutes.GenerateAccessToken | server/authRoutes.js:18-40 | a result exists exactly when the signed token decodes, and its expiresAt is the decoded exp times 1000. For a faithful decoder that is (iat + 3600) * 1000 |
| AuthRoutes.UserProjection | server/authRoutes.js:148-154 | the user object has exactly user_id, username, full_name, role_id and email, and never password_hash |
| AuthRoutes.LoginSuccessBody | server/authRoutes.js:145-157 | the 200 body has exactly message, user, accessToken and tokenExpiresAt, with the token and its expiry |
| AuthRoutes.Login | server/authRoutes.js:114-163 | a missing email or password gives 400. An unknown email and a wrong password both give 401 with the same body. A matching password gives 200 with the projection and the issued token. The table never changes |
| UserRoutes.ResetToken | server/userRoutes.js:82 | the token of 32 random bytes is 64 lowercase hex characters that decode back to those bytes |
| UserRoutes.ResetUrl | server/userRoutes.js:94 | the link is the reset-page prefix followed by exactly the token |
| UserRoutes.ClassifyResetError | server/userRoutes.js:120-126 | the schema message wins over the mail message, which wins over the generic one |
| UserRoutes.WithResetToken | server/userRoutes.js:86-91 | the UPDATE replaces token and expiry and keeps every other column |
| UserRoutes.SendResetLink | server/userRoutes.js:62-132 | an account without email gives 400 and no write. A failed UPDATE gives 500 and no write. Otherwise only that row gets the new token and now + 86,400,000, before the mail. A mail failure still gives 500 with the token kept. Success sends the link to the account's own email with the 'sent to' message |
| App.StoredExpiryOfNumber | client/src/App.jsx:15 | an expiry stored as the text of a number reads back as that number |
| App.InitialState | client/src/App.jsx:13-37 | with no user string or a 0/NaN expiry, null and untouched storage. A live expiry with parseable JSON gives the parsed user and untouched storage. Unparseable JSON removes only 'user'. An expired session removes all three keys |
| App.RestoredOnlyWhenLive | client/src/App.jsx:17-23 | a restored user comes from a non-empty user string and a nonzero expiry later than now |
| App.RestoredWhenLive | client/src/App.jsx:17-23 | conversely, a parsable user string with a nonzero expiry later than now is restored |
| App.StartupOnlyRemovesSessionKeys | client/src/App.jsx:24-34 | the start-up check removes at most the three session keys and changes no value |
| App.StartupCleanupIdempotent | client/src/App.jsx:13-37 | a second start-up check on the storage the first one left changes nothing more |
| App.ReloadAfterLogout | client/src/App.jsx:47-52 | after logout a reload restores nobody and removes nothing |
| App.Browser.GetInitialUserState | client/src/App.jsx:13-37 | the method's result and new storage are InitialState of the old storage |
| App.Browser.Mount | client/src/App.jsx:41 | the first render's user and storage are InitialState of the stored session |
| App.Browser.HandleLogout | client/src/App.jsx:47-52 | the three session keys go, everything else stays, and user becomes null |
| App.Browser.HandleLoginSuccess | client/src/App.jsx:54-56 | only the in-memory user changes |
| App.MatchResetRoute | client/src/App.jsx:86 | a match exactly for the prefix followed by one non-empty segment without '/', which is the token |
| App.Route | client/src/App.jsx:66-86 | '/' renders Home exactly when the user is truthy and Login otherwise; '/login' renders Login; the reset route renders the reset page with its token |
| App.ResetLinkRoutesBack | client/src/App.jsx:86 | the path of a mailed reset link opens the reset page with exactly the issued token |
| Home.ExpiryDecision | client/src/components/Home.jsx:38-51 | log out at once exactly when the user is falsy, the expiry is 0 or NaN, or at most 1000 ms remain. Otherwise arm one timer for the remaining time, which is over 1000 ms |
| Home.PlaceholderTitle | client/src/components/Home.jsx:85 | the upper-cased item with only its first '-' turned into a space, followed by ' feature coming soon!' |
| Home.UpperKeepsHyphens | client/src/components/Home.jsx:85 | upper-casing neither adds nor moves a '-', so it does not matter that the replace runs after it |
| Home.RenderContent | client/src/components/Home.jsx:57-89 | each of the six known ids gives its own view, in both directions; every other id gives the placeholder |
| Home.HomePage.constructor | client/src/components/Home.jsx:34 | the initial view is 'dashboard', no timer is scheduled and there is no cleanup |
| Home.HomePage.RunExpiryEffect | client/src/components/Home.jsx:38-54 | the previous run's cleanup removes its timer from the scheduled ones, which leaves none. The App then logs out at once with no cleanup, or exactly one timer for the remaining time is scheduled along with its cleanup. The stored expiry is never written |
| Home.HomePage.FireTimer | client/src/components/Home.jsx:51 | a scheduled timer runs the logout and leaves the scheduled timers, leaving none |
| Home.HomePage.Unmount | client/src/components/Home.jsx:53 | the last cleanup leaves no timer scheduled |
| Home.HomePage.SetActiveItem | client/src/components/Home.jsx:34 | the sidebar's selection becomes the active item, and the timers and the cleanup are untouched |
| Home.HomePage.Render | client/src/components/Home.jsx:95-98 | without a user only the loading placeholder, otherwise the active content |
| Home.EffectTwice | client/src/components/Home.jsx:38-54 | after two effect runs at most one timer is scheduled, and it is armed for the second run's remaining time |
| Home.Cleared | client/src/components/Home.jsx:53 | a cleanup clears exactly its own timer, or nothing |
| Home.AtMostOneTimer | client/src/components/Home.jsx:51-53 | while every scheduled timer is the one the current cleanup clears, at most one timer is scheduled |
| Login.ReadSessionAsWritten | client/src/components/Login.jsx:175-177 | the client reads a session exactly when 'token', 'expiresAt' and 'user' are all truthy |
| Login.ReadSession | client/src/components/Login.jsx:175-177 | with the server's keys, a session is read exactly when 'accessToken', 'tokenExpiresAt' and 'user' are truthy, and it carries those three values |
| Login.AsWrittenRejectsEveryLogin | client/src/components/Login.jsx:175-177 | as written, every successful server answer is rejected as missing token data |
| Login.ReadsServerSession | client/src/components/Login.jsx:175-177 | with the server's keys, a successful answer yields the issued token, its expiry and the projection |
| Login.StoreSession | client/src/components/Login.jsx:180-186 | the three keys are set to String(token), String(expiresAt) and the stringified user, and every other entry is kept |
| Login.StoredExpiryReadsBack | client/src/components/Login.jsx:180-186 | the expiry written at login reads back as the same number |
| Login.StoredSessionSurvivesReload | client/src/components/Login.jsx:180-186 | a stored session with a future expiry is restored by the start-up check |
| Login.LoginSurvivesReload | client/src/components/Login.jsx:175-192 | a login answer from the server, stored by the corrected reader, survives a reload with the same user |
| Login.RequestBody | client/src/components/Login.jsx:158-161 | the body is exactly {email, password} |
| Login.ServerRequest | server/authRoutes.js:115 | the server reads back the form's two fields from that body |
| Login.LoginForm.constructor | client/src/components/Login.jsx:124-130 | empty fields, no messages, not loading |
| Login.LoginForm.HandleChange | client/src/components/Login.jsx:133-141 | only the named field changes, and both messages are cleared |
| Login.LoginForm.HandleSubmit | client/src/components/Login.jsx:147-211 | an empty field sets its error and sends nothing. Otherwise it posts {email, password}. An ok answer is read as written, as { user, token, expiresAt }: when all three are truthy the session is stored and logs the App in, otherwise the token-missing error is shown and storage and the App's user stay as they were. A non-ok answer shows data.error or the fallback. A network failure or a null body shows the connection error |
| Login.ServerLoginShowsTokenMissing | client/src/components/Login.jsx:172-198 | on every successful answer the login route sends, the handler shows the token-missing error, stops loading, and leaves storage and the App's user untouched |
| ResetPassword.ResetValidation | client/src/features/Auth/ResetPassword.jsx:26-41 | the checks run in the order token, length 8, match, and the first failing one gives its message. There is no message exactly when all three pass |
| ResetPassword.ResetRequestBody | client/src/features/Auth/ResetPassword.jsx:47-50 | the body is exactly {token, newPassword} |
| ResetPassword.ResetPage.constructor | client/src/features/Auth/ResetPassword.jsx:9-13 | empty fields and messages, not loading |
| ResetPassword.ResetPage.ChangePassword | client/src/features/Auth/ResetPassword.jsx:16-19 | a changed password clears both messages |
| ResetPassword.ResetPage.ChangeConfirmPassword | client/src/features/Auth/ResetPassword.jsx:16-19 | a changed confirmation clears both messages |
| ResetPassword.ResetPage.HandleSubmit | client/src/features/Auth/ResetPassword.jsx:21-70 | a failed check sets its message and sends nothing. Otherwise it posts the body. Success shows the confirmation and schedules the redirect. Failure shows the server's error or the fallback. Loading ends false |
| Signup.InsertById | client/src/features/Auth/Signup.jsx:39 | inserting into a sorted list keeps it sorted and adds exactly that role |
| Signup.SortById | client/src/features/Auth/Signup.jsx:39 | ascending ids and a permutation of the input |
| Signup.DefaultRoleId | client/src/features/Auth/Signup.jsx:43 | role 6 when present, otherwise the first role |
| Signup.BuiltInDefaultIsPreferred | client/src/features/Auth/Signup.jsx:32-44 | the built-in table preselects role 6 |
| Signup.SplitName | client/src/features/Auth/Signup.jsx:75-77 | the first name holds no space, and a name without a space gives an empty last name |
| Signup.SplitNameRoundTrip | client/src/features/Auth/Signup.jsx:75-77 | for a name with a space, the server's firstName + ' ' + lastName is the name again |
| Signup.ServerRoleId | client/src/features/Auth/Signup.jsx:85 | the server sees the role id exactly when the field holds a number (NaN is sent as null) |
| Signup.SignupForm.constructor | client/src/features/Auth/Signup.jsx:6-17 | empty fields, no roles, loading |
| Signup.SignupForm.LoadRoles | client/src/features/Auth/Signup.jsx:28-52 | the roles are sorted by id and the default role is preselected; the other fields are untouched |
| Signup.SignupForm.HandleChange | client/src/features/Auth/Signup.jsx:54-62 | the form data becomes its spread update with the edited input; both messages clear; roles and loading keep their values |
| Signup.WithField | client/src/features/Auth/Signup.jsx:56-59 | the spread update: the named input takes the value (roleId its parseInt) and every other input keeps its value |
| Signup.ChangesCommute | client/src/features/Auth/Signup.jsx:56-59 | edits of two different inputs give the same form in either order |
| Signup.LastChangeWins | client/src/features/Auth/Signup.jsx:56-59 | a second edit of the same input replaces the first |
| Signup.RequestOf | client/src/features/Auth/Signup.jsx:75-86 | the posted fields, with the split name and the server's reading of the role |
| Signup.SignupForm.HandleSubmit | client/src/features/Auth/Signup.jsx:64-110 | mismatched passwords set their error and send nothing. Otherwise the request is posted. Success resets every field but roleId. Failure shows the server's error or the fallback |
| Signup.SuccessText | client/src/features/Auth/Signup.jsx:98 | the success message holds the user name at its fixed place |
| Signup.CreatedText | server/authRoutes.js:96-101 | the 201 body of a signup has no username, so the success template reads 'undefined' |
| Signup.RefusalText | server/authRoutes.js:47-51 | the 400 body of a refused signup shows its own message on the form |
| Signup.NamedCreatedBody | server/authRoutes.js:96-101 | the 201 body with the created username added, every other field kept |
| Signup.NamedBodyNamesUser | client/src/features/Auth/Signup.jsx:98 | with the username in the answer, the success text names the created user |
| Signup.NoSpaceNameIsRefused | client/src/features/Auth/Signup.jsx:75-77 | a full name without a space leaves the last name empty, which the signup route refuses |
| Signup.RegisterThroughServer | client/src/features/Auth/Signup.jsx:88-101 | the form posted to the signup route: a refused request changes no table and shows the route's message. An accepted one inserts the row with the joined name, and the success text reads 'Success! User undefined created.' |
| Users.FirstBlankChange | client/src/features/Users/Users.jsx:130-158 | the first changed text field that is blank, checked in the order full name, username, email, gives its message |
| Users.ExpectedPayload | client/src/features/Users/Users.jsx:126-169 | the payload has a key exactly for each changed field |
| Users.BuildPatch | client/src/features/Users/Users.jsx:126-175 | the field-by-field comparison gives Invalid with the first blank change's message, NoChanges, or the expected payload |
| Users.Merged | client/src/features/Users/Users.jsx:183-191 | the saved row has the edited fields and the parsed role id, and keeps its id |
| Users.MergeRow | client/src/features/Users/Users.jsx:182-192 | only the rows with that id are replaced by the merge, and the length is unchanged |
| Users.FindUser | client/src/features/Users/Users.jsx:119 | None exactly when no row has the id; otherwise a row with that id |
| Users.UsersPage.constructor | client/src/features/Users/Users.jsx:47-57 | the page starts with its rows, not editing, not saving, with empty status maps |
| Users.UsersPage.HandleEdit | client/src/features/Users/Users.jsx:84-96 | editing starts on a copy of the row and the error clears |
| Users.UsersPage.HandleCancel | client/src/features/Users/Users.jsx:98-100 | editing stops and nothing else changes |
| Users.UsersPage.HandleSave | client/src/features/Users/Users.jsx:110-201 | without an edit nothing happens. A missing original sets its error. A blank change aborts with its message. No change closes the editor without a request. Otherwise the payload is sent; success merges only that row, failure shows the error or the fallback. Saving always ends false |
| Users.UsersPage.BeginSendResetLink | client/src/features/Users/Users.jsx:204-212 | this user is 'sending' and its error is cleared; others are untouched |
| Users.UsersPage.FinishSendResetLink | client/src/features/Users/Users.jsx:214-238 | 'success', or 'error' with the backend message or the fallback, for this user only |
| Users.UsersPage.ClearSentStatus | client/src/features/Users/Users.jsx:224-226 | the success timer resets only this user's status |
| Users.UsersPage.ClearFailedStatus | client/src/features/Users/Users.jsx:241-247 | the failure timer resets only this user's status and error |
| Users.RoleNumOf | client/src/features/Users/Users.jsx:91 | the select starts at the row's own role, which parses back to it |
| Users.UntouchedEditHasNoPayload | client/src/features/Users/Users.jsx:126-175 | saving an untouched edit finds no change and sends nothing |
| Users.SendForOneUser | client/src/features/Users/Users.jsx:454-466 | a send for one user leaves every other user's status and error as they were, and its button is shown again afterwards |
| Purchasing.SortedKeys | client/src/features/Purchasing/Purchasing.jsx:87 | every key of the cart exactly once, ascending |
| Purchasing.FindItem | client/src/features/Purchasing/Purchasing.jsx:91 | None exactly when no catalog item has the id; otherwise such an item |
| Purchasing.CleanQuantity | client/src/features/Purchasing/Purchasing.jsx:67-71 | parseInt of the input, with NaN and negatives as 0 |
| Purchasing.LineFor | client/src/features/Purchasing/Purchasing.jsx:89-98 | the id and quantity, with the catalog name and price, or 'Unknown Item' at price 0 |
| Purchasing.LinesForSpec | client/src/features/Purchasing/Purchasing.jsx:87-99 | each line comes from a key with a positive quantity, every such key has a line, and the ids ascend |
| Purchasing.OrderLinesSpec | client/src/features/Purchasing/Purchasing.jsx:87-99 | the order has one line per positive cart entry, with that quantity, ascending by id |
| Purchasing.OrderedQuantities | client/src/features/Purchasing/Purchasing.jsx:113-115 | the map's keys are exactly the ids of the lines |
| Purchasing.QuantitiesAgree | client/src/features/Purchasing/Purchasing.jsx:113-115 | lines whose quantities agree with the cart give a map that agrees with the cart |
| Purchasing.OrderQuantitiesAreCart | client/src/features/Purchasing/Purchasing.jsx:87-115 | for a valid cart, the ordered quantities have exactly the cart's ids and quantities |
| Purchasing.EmptyOrderIffEmptyCart | client/src/features/Purchasing/Purchasing.jsx:87-104 | the order is empty exactly when the cart is |
| Purchasing.Restocked | client/src/features/Purchasing/Purchasing.jsx:117-127 | an item gains a non-zero ordered quantity and keeps everything else |
| Purchasing.Restock | client/src/features/Purchasing/Purchasing.jsx:112-129 | the catalog after an order, item by item, in the same order |
| Purchasing.RestockAgrees | client/src/features/Purchasing/Purchasing.jsx:117-128 | restocking depends only on the quantity of each id |
| Purchasing.OrderRestocksCart | client/src/features/Purchasing/Purchasing.jsx:111-129 | each catalog item gains exactly its cart quantity |
| Purchasing.SummaryFor | client/src/features/Purchasing/Purchasing.jsx:147-164 | the lines of the keys found in the catalog, with their catalog details, in key order |
| Purchasing.PurchasingPage.constructor | client/src/features/Purchasing/Purchasing.jsx:6-12 | an empty cart over the catalog |
| Purchasing.PurchasingPage.HandleQuantityChange | client/src/features/Purchasing/Purchasing.jsx:66-83 | a cleaned 0 deletes the key, a positive quantity sets it, other keys stay, and no quantity is ever 0 or negative |
| Purchasing.PurchasingPage.PlacePurchaseOrder | client/src/features/Purchasing/Purchasing.jsx:85-142 | an empty cart warns and sends nothing. Otherwise it posts the order lines. Success restocks each item by its cart quantity, empties the cart and shows the server's message. A 2xx answer with a null body also restocks and empties the cart, then shows 'Order failed: ' with the fallback, because reading its message throws. Failure leaves cart and catalog and shows 'Order failed: ' with the message or the fallback |
| Purchasing.PurchasingPage.TotalItems | client/src/features/Purchasing/Purchasing.jsx:145 | the number of cart keys, 0 exactly when the cart is empty |
| Purchasing.PurchasingPage.OrderButtonDisabled | client/src/features/Purchasing/Purchasing.jsx:320 | the order button is disabled exactly when the cart is empty |
| Purchasing.PurchasingPage.Summary | client/src/features/Purchasing/Purchasing.jsx:147-164 | the cart entries found in the catalog, ascending by id, and all of them |
| Purchasing.MessageOr | client/src/features/Purchasing/Purchasing.jsx:137-139 | the answer's message when truthy, otherwise the fallback |
| Sidebar.FirstLetters | client/src/components/Sidebar.jsx:27 | one first letter per word, in order |
| Sidebar.Words | client/src/components/Sidebar.jsx:25 | the non-empty space-free words of the name |
| Sidebar.Initials | client/src/components/Sidebar.jsx:23-30 | 'User' for an empty name. The first letters of the first two words when there are several. Otherwise the first two characters. Always upper-cased, and 1 or 2 characters for a non-empty name |
| Sidebar.SingleWord | client/src/components/Sidebar.jsx:25 | a name without a space is one word |
| Sidebar.TwoWordInitials | client/src/components/Sidebar.jsx:25-28 | 'First Last' gives the upper-cased first letters of both |
| Sidebar.OneWordInitials | client/src/components/Sidebar.jsx:29 | a single word gives its first two characters upper-cased |
| Sidebar.ItemIcon | client/src/components/Sidebar.jsx:33-41 | each icon exactly when its substring test matches and every earlier test fails; the folder icon exactly when none matches |
| Sidebar.CreateUsersIcon | client/src/components/Sidebar.jsx:36-37 | 'create-users' gets the user icon |
| Sidebar.PricingIcon | client/src/components/Sidebar.jsx:34-38 | 'inbound-pricing' gets the tag icon |
| Sidebar.CreatePricingIcon | client/src/components/Sidebar.jsx:36 | an id with both 'create' and 'pricing' gets the user icon, because the user test comes first |
| Sidebar.RoleName | client/src/components/Sidebar.jsx:89 | the table entry under String(role_id), otherwise 'Role Undefined' |
| Sidebar.NumericRoleName | client/src/components/Sidebar.jsx:13-20 | a numeric role id names a role exactly when it is 1 to 6 |
| Sidebar.RoleNamesAgreeWithSignup | client/src/components/Sidebar.jsx:13-20 | the sidebar's table and the signup form's role list agree on every built-in role, and role 1 is the server's administrator role |
| Sidebar.ProfileOf | client/src/components/Sidebar.jsx:85-90 | a falsy name becomes 'Grace Mark', with initials 'GM'. A falsy email becomes 'guest@dashboard.com'. The role name comes from the table, and the initials are never 'User' |
| Sidebar.FallbackInitials | client/src/components/Sidebar.jsx:85-90 | the fallback name shows 'GM' |
| PurchasingRoutes.PlaceholdersAppend | server/purchasing.js:43-47 | the placeholders of appended clauses are those of the first followed by those of the second |
| PurchasingRoutes.HardwareQuery | server/purchasing.js:20-47 | the query built step by step is exactly QueryFor of the supplierId |
| PurchasingRoutes.QueryFor | server/purchasing.js:20-47 | the SELECT first and the ORDER BY last; [supplierId] as the one parameter exactly when supplierId is truthy, otherwise none; the placeholders $1 to $n for n parameters |
| PurchasingRoutes.ListHardware | server/purchasing.js:18-55 | the rows of the assembled query, or 500 with its message when the query fails |
| PurchasingRoutes.UpdateQueryText | server/purchasing.js:78-85 | the UPDATE uses $1 and $2, for [value, hardwareId] |
| PurchasingRoutes.HardwareTable.UpdateField | server/purchasing.js:68-97 | any field but storage_location or locator_bin gives 400 before any query, so only those two reach SET. A failing query gives 500. No matching row gives 404. Otherwise one cell changes and the answer is '<field> updated successfully.' with the row |
| PurchasingRoutes.UpdateTouchesOneCell | server/purchasing.js:78-83 | the update changes one column of one row and nothing else |
| Js.ErrorOr | client/src/components/Login.jsx:201 | a truthy string data.error, otherwise the fallback |
| Js.AxiosErrorText | client/src/features/Auth/ResetPassword.jsx:63-66 | the fallback with no response, otherwise the body's error or the fallback |
| Js.NumberOfItem | client/src/App.jsx:15 | a missing item reads as 0 |
| Js.NumberOfToString | client/src/App.jsx:15 | Number(String(n)) is n |
| Js.ParseIntOfToString | client/src/features/Users/Users.jsx:160 | parseInt(String(n)) is n |
| Hex.Encode | server/userRoutes.js:82 | two lowercase hex characters per byte |
| Hex.DecodeEncode | server/userRoutes.js:82 | decoding the hex text of bytes gives the bytes back |
| Hex.NoSlash | client/src/App.jsx:86 | hex text holds no '/', so a token fills one path segment |
| Strings.JoinSplit | client/src/features/Auth/Signup.jsx:77 | splitting and joining with the same separator gives the string back |
| Strings.HeadAndRest | client/src/features/Auth/Signup.jsx:75-77 | the first piece, the separator and the rejoined rest make the string |
| Strings.TrimNoSpace | client/src/features/Users/Users.jsx:131 | a string without white space is its own trim |

## Left out

- Database transactions, connection failures and the generic 500 answers of the signup and login routes. The signup transaction is one atomic step; concurrent first signups are not modelled.
- Environment configuration (JWT_SECRET, ACCESS_TOKEN_EXPIRY other than its '1h' default, EMAIL_USER).
- bcrypt, jsonwebtoken, crypto.randomBytes, nodemailer, fetch and axios are parameters. Their behaviour is not modelled, beyond a decoder that gives back the signed claims where a lemma needs one.
- JavaScript numbers are integers or NaN. Fractions, infinities and exponent forms of `Number` and `parseInt` are not modelled.
- Upper-casing covers ASCII letters only; Unicode case mapping is not modelled.
- Strings are sequences of Unicode characters, while JavaScript's `.length` and indexing count UTF-16 code units. A password of three emoji is 6 units long and passes the length checks at server/authRoutes.js:47 and client/src/features/Auth/ResetPassword.jsx:33, but the model counts 3 and refuses it. Likewise `n[0]` in getInitials takes half of a surrogate pair where the model takes the whole character.
- Js.NumberOf: only optionally signed decimal integer text is read. The `0x`, `0o` and `0b` prefixed forms that `Number` accepts read as NaN here, and so do fractions, exponents and "Infinity".
- Real timer scheduling and races between timers and renders. Timers are explicit events (FireTimer, ClearSentStatus, ClearFailedStatus, the redirect flag).
- The clock is a parameter (`nowMs`); Home reads it once per effect run.
- Purchasing.HardwareItem: stock_quantity is an integer. The source stores it back as a string.
- Purchasing.HardwareItem: prices are integers. Line totals, orderTotal and currency formatting are floating-point and left out.
- The elided handlers are not modelled: GET /users, PATCH /users/:id, POST /order and GET /suppliers.
- UserRoutes.SendResetLink: requires an existing account, because the user-existence check at server/userRoutes.js:74 is elided in the source.
- No server handler for POST /api/auth/reset-password exists in the server files, so token matching and single use are not part of this model.
- server/index.js never mounts server/purchasing.js. The routes are modelled as written, not as reachable.
- The HTML of the reset mail is left out, apart from the link it carries.
- React Router's general path matching is left out. Only the three routes of App.jsx are modelled.
- PurchasingRoutes.HardwareSelect: the SELECT text is condensed to single spaces. Query texts are modelled as literal pieces and numbered placeholders. The placeholder count is therefore structural, not a scan of the SQL characters.
- PurchasingRoutes.HardwareTable.UpdateField: the row is chosen by an integer id. The driver's casting of a malformed hardwareId is not modelled.
- Sidebar.ProfileOf: a truthy non-string full_name is turned into its string form. In the source, getInitials would throw on it.
- Purchasing.PurchasingPage.TotalItems: is not proved equal to the number of order lines. With a valid cart they coincide by OrderLinesSpec, but no lemma states it.

## Findings

| source | as written | input that shows it | evidently intended | confidence | as-written member | corrected member |
|---|---|---|---|---|---|---|
| client/src/components/Login.jsx:175 | the client reads `token` and `expiresAt` from the login answer, but server/authRoutes.js:155-156 sends `accessToken` and `tokenExpiresAt` | any successful login: the answer has no `token` key, so the client always shows 'Login failed: Token data missing from server response.' | read `accessToken` and `tokenExpiresAt`, store them, and log the user in | not executed | Login.AsWrittenRejectsEveryLogin | Login.LoginSurvivesReload |
| client/src/features/Auth/Signup.jsx:98 | the success text reads `data.username`, but the 201 answer at server/authRoutes.js:96-101 holds only `message` and `user_id` | any accepted signup: the form shows 'Success! User undefined created.' | name the created user, for example by sending the username in the 201 answer | not executed | Signup.CreatedText | Signup.NamedBodyNamesUser |
