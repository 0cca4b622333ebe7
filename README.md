# Loan Lens — a Dafny model of the loan application core

Loan Lens is a small loan-application system. It has three parts:

- **Flask server** (`app.py`). It registers and logs in users with JWT tokens. It stores loan applications in MongoDB. It scores applications by running a scoring script as a subprocess (`predict.py`), and lets an administrator change an application's status. The status change is logged and pushed onto the application's history.
- **Scoring module** (`prediction_service.py`). It loads a pickled model and a SHAP explainer once. It maps the applicant's credit history to a code and returns a risk score, a recommendation and the per-feature explanation.
- **Two React front ends.**
  - The client app lets an applicant sign up, log in, apply and see their applications on a dashboard. It also lets them pay a loan through a payment modal.
  - The admin app lets an administrator log in and list every application with its feature explanation. The administrator can update an application's status through a modal. There is also a page that lists the approved applications from a Redux slice.

The model is organised one module per source file.

**Shared modules:**
- `Common`: options, and JavaScript truthiness of optional strings.
- `Json`: server-side JSON/BSON values, Python exceptions, and `jsonify`.
- `Http`: axios outcomes and the error-message fallbacks the pages compute.
- `Browser`: `localStorage`, and the side effects a handler asks its parent for.
- `Records`: the application record as the pages see it.
- `Ledger`: the remaining-balance and payment-amount arithmetic.
- `Features`: the feature row and explanation shared by both scorers.

**Server:** `Server` is a `Store` class whose fields are the `users`, `applications` and `status_changes` collections. Its methods are the request handlers.

**React components:** each component is a class whose fields are its `useState` variables. Its methods are the handlers, and what a handler asks of its parent is returned as an `Effects` value. This covers `PaymentModal`, `Dashboard`, `Applications`, `StatusUpdateModal`, `AdminApp`, `AdminNavbar`, `ClientNavbar`, `LoginForm`, `SignupForm` and `ApplyForm`.

**Pure modules:** `ApprovedApplications` and `RootSlice` are pure functions and a reducer. `PredictionService` models the scoring module. `PredictScript` models the subprocess script.

`Flows` relates modules to each other:
- a form's output against the server's checks;
- the two scorers against each other;
- the modal's status list against the server's.

**Things the model makes explicit:**
- Anything the code cannot see is a parameter: clocks, fresh ObjectIds, JWT identities and tokens, bcrypt, the model's `predict_proba`, the explainer, the subprocess outcome, axios outcomes, and JavaScript's `parseFloat`/`Number`.
- The admin navbar's `handleLogout` sets the logged-in flag to `true` (`admin/src/components/Navbar.jsx:167-169`). Only the `app-logout` listener in `App.jsx` brings it back to `false`. As mounted, the Logout button is never rendered: it appears only under `isLoggedIn ?` (`admin/src/components/Navbar.jsx:302`, `:343`), and the shell passes no such prop. `AdminApp.LogoutScenario` therefore logs out through a navbar given the flag (`NavbarPropCorrected`). It shows the end state: a login page and no navbar.
- The signup and login pages store `response.data.name`. The signup reply never has a `name` field (`app.py:141-145`), so the string `"undefined"` is what lands in `localStorage` (`Browser.StoredText`).
- No admin file modelled here dispatches the `rootSlice` actions, and `admin/src/App.jsx` neither routes the approved page nor mounts a Redux `Provider`. The store setup is not part of this model. From the initial state the approved page shows its "none found" message (`RootSlice.InitialStoreShowsNoApproved`).
- The server's e-mail regex is applied with `re.match`, so only a prefix of the address must match. The client's regex is anchored at both ends. Every address the client accepts passes the server, but not the other way round (`Flows`).
- The two scorers disagree on two points.
  - The recommendation rule: the script never says "reject".
  - The credit code: `predict.py` does not lower-case its input, so "Good" scores 0 there and 2 in the service.

## Model

| member | source | states |
|---|---|---|
| Common.Lower | prediction_service.py:66 | lower-casing keeps the length and maps every character through the ASCII lower-case table |
| Json.Contains | app.py:34 | `key in data` is membership for a dict and raises for values that are not containers |
| Json.Falsy | app.py:115 | `not data` holds exactly for None, False, zero, the empty string, the empty list and the empty dict |
| Json.IsSubstring | app.py:34 | `key in text` on a string: `key` occurs at some position of `text` |
| Json.Subscript | predict.py:54-59 | `data[key]` succeeds exactly on a dict holding the key; otherwise KeyError, or TypeError on a non-dict |
| Json.GetOr | prediction_service.py:75-76 | `data.get(key, default)` succeeds exactly on a dict, giving the stored value or the default; otherwise AttributeError |
| Json.AllPresent | app.py:33-35 | `all(field in data ...)` is true on a dict exactly when every key is present, and raises TypeError on a non-container |
| Json.Serializable | app.py:84 | the values Flask's encoder can write: all but ObjectIds and bytes, at any depth |
| Json.Jsonify | app.py:84 | jsonify answers with the given status exactly when the body holds no raw ObjectId or bytes, and raises TypeError otherwise |
| Json.EncodeIds | app.py:84 | turning ObjectIds into strings makes every value without raw bytes serialisable |
| Json.JsonifyCorrected | app.py:84 | an id-encoding jsonify answers every password-free body with the requested status, and changes nothing in an already serialisable body |
| Json.ObjectIdFreeUnchanged | app.py:84 | encoding ids is the identity on a value that is already serialisable |
| Json.StatusCode | app.py:67-68 | an uncaught exception is answered with status 500 |
| Http.CaughtMessage | client/src/components/Dashboard.jsx:44-48 | a failed fetch shows the server's error, else the server fallback, else the exception's message or a generic text; never empty |
| Http.ServerErrorOr | client/src/components/Dashboard.jsx:92 | a failed request shows the server's `error` when truthy and the fallback otherwise; never empty |
| Http.ExplainedFailure | client/src/components/Signup.jsx:82-94 | signup/apply failure text: server `error`, then server `message`, then the fallback; no reply and other failures get their own fixed texts |
| Browser.StoredText | client/src/components/Signup.jsx:73-75 | `localStorage.setItem` stores a value's text, and the text "undefined" for a missing one |
| Browser.Storage.GetItem | admin/src/App.jsx:11 | a key has a value iff it is stored, and the value is the stored text |
| Browser.Storage.SetItem | client/src/components/Signup.jsx:73-75 | storing sets the key to the value's text and leaves every other key |
| Browser.Storage.RemoveItem | client/src/components/Navbar.jsx:151-153 | removing drops exactly that key |
| Browser.Storage.WriteSession | client/src/components/Login.jsx:194-196 | writing the session sets exactly the token, user id and user name keys |
| Browser.Storage.ClearSession | client/src/components/Navbar.jsx:151-153 | logging out removes exactly the three session keys and leaves no session |
| Browser.MissingTokenStillCountsAsSession | admin/src/App.jsx:11 | a stored "undefined" token counts as logged in for `!!localStorage.getItem` |
| Ledger.RemainingBalance | client/src/components/PaymentModal.jsx:9-11 | remaining plus paid equals the loan amount, with missing values read as 0 |
| Ledger.RoundToCents | client/src/components/PaymentModal.jsx:15 | the prefilled amount is a whole number of cents within half a cent of its input |
| Ledger.DefaultPaymentAmount | client/src/components/PaymentModal.jsx:13-16 | the prefilled amount is 0 for a settled loan and the remaining balance to the cent otherwise |
| Ledger.CheckPayment | client/src/components/PaymentModal.jsx:22-31 | a payment is accepted iff it is a positive number at most the balance plus 0.01; each refusal is named iff its condition holds |
| Ledger.EnabledSubmitPassesChecks | client/src/components/PaymentModal.jsx:110 | when the submit button is enabled, the submit checks accept the amount and the balance is positive |
| Ledger.FullyPaidLoanIsNotPayable | client/src/components/Dashboard.jsx:199 | a loan paid in full disables both the card's payment button and the modal's submit button |
| Ledger.SubmitDisabled | client/src/components/PaymentModal.jsx:110 | the submit button is disabled while loading, when nothing remains, or when the parsed amount is not positive or exceeds the balance plus a cent; an unparseable amount does not disable it |
| Ledger.MakePaymentDisabled | client/src/components/Dashboard.jsx:199 | the card's button is disabled when nothing remains or the loan was rejected |
| Ledger.ToleranceBoundary | client/src/components/PaymentModal.jsx:28 | an overpayment of half a cent passes and one of a whole unit is refused |
| Ledger.DefaultAmountIsAccepted | client/src/components/PaymentModal.jsx:13-31 | submitting the prefilled amount is accepted whenever at least half a cent is owed |
| Ledger.TinyBalanceRoundsToZero | client/src/components/PaymentModal.jsx:15 | a balance below half a cent prefills 0 and leaves the submit button disabled |
| PaymentModal.ErrorFor | client/src/components/PaymentModal.jsx:22-31 | an invalid amount shows the positive-amount message, an excess shows the balance message, and an accepted amount shows none |
| PaymentModal.Form.constructor | client/src/components/PaymentModal.jsx:4-6 | the modal starts with an empty amount, mobile money, and no error |
| PaymentModal.Form.Remaining | client/src/components/PaymentModal.jsx:9-11 | the balance the form checks against is the application's remaining balance |
| PaymentModal.Form.PrefillAmount | client/src/components/PaymentModal.jsx:13-16 | the effect sets the amount to the default payment amount |
| PaymentModal.Form.ChangeAmount | client/src/components/PaymentModal.jsx:66 | typing sets the amount |
| PaymentModal.Form.ChangeMethod | client/src/components/PaymentModal.jsx:83 | choosing sets the method |
| PaymentModal.Form.HandleSubmit | client/src/components/PaymentModal.jsx:18-34 | the parent is called with (id, amount, method) iff the amount passes both checks; otherwise exactly the matching error is shown |
| PaymentModal.Form.SubmitButtonDisabled | client/src/components/PaymentModal.jsx:110 | the submit button's state is SubmitDisabled of the form's balance and amount |
| PaymentModal.Form.FieldsDisabled | client/src/components/PaymentModal.jsx:71-86 | the amount and method fields are disabled while loading or when nothing remains |
| PaymentModal.PrefilledSubmitScenario | client/src/components/PaymentModal.jsx:13-34 | opening the modal and submitting at once pays the rounded remaining balance by mobile money |
| Dashboard.Cards | client/src/components/Dashboard.jsx:122-132 | one card per application, in order, each showing its remaining balance |
| Dashboard.CardFor | client/src/components/Dashboard.jsx:128-199 | a card shows its record and remaining balance, and its payment button is disabled iff nothing remains or the loan was rejected |
| Dashboard.View.constructor | client/src/components/Dashboard.jsx:9-16 | the page starts loading, with no applications, no error and no modal |
| Dashboard.View.FetchApplications | client/src/components/Dashboard.jsx:19-52 | without a token the error is the login prompt; on success the list is replaced; on failure the list is kept and the caught message shown; loading ends |
| Dashboard.View.OpenPaymentModal | client/src/components/Dashboard.jsx:58-61 | opening selects the application and shows the modal |
| Dashboard.View.ClosePaymentModal | client/src/components/Dashboard.jsx:63-67 | closing hides the modal, drops the selection and clears the error |
| Dashboard.View.HandlePaymentSubmit | client/src/components/Dashboard.jsx:69-96 | as written: a 200 reply shows the alert and then "Failed to process payment."; failures show the server's error; processing ends |
| Dashboard.View.HandlePaymentSubmitCorrected | client/src/components/Dashboard.jsx:69-96 | with the refetch in scope: a 200 reply closes the modal, clears the error and reloads the list; other replies leave the list and the modal alone |
| Dashboard.View.Render | client/src/components/Dashboard.jsx:99-132 | loading, then error, then the empty message iff there are no applications, else one card per application |
| Dashboard.View.PaymentFormShown | client/src/components/Dashboard.jsx:213-214 | the payment form is rendered when the modal flag is set and an application is chosen, beside the list (not during loading or an error) |
| Dashboard.PaymentSuccessScenario | client/src/components/Dashboard.jsx:83-92 | after an accepted payment the page as written shows the failure message, and the corrected page shows the refreshed cards |
| Applications.ReplaceUnderscores | admin/src/components/Applications.jsx:459 | every underscore becomes a space and every other character is kept |
| Applications.CapitalizeWords | admin/src/components/Applications.jsx:459 | `replace(/\b\w/g, s => s.toUpperCase())`: each word character that follows a non-word character, or starts the string, is upper-cased |
| Applications.CapitalizeWordsAt | admin/src/components/Applications.jsx:459 | a character is upper-cased exactly when it is a word character at the start of a word |
| Applications.CapitalizeWordsLength | admin/src/components/Applications.jsx:459 | capitalising keeps the length |
| Applications.FormatFeatureName | admin/src/components/Applications.jsx:459 | underscores become spaces, then every word character at the start of a word is upper-cased |
| Applications.FormatFeatureNameSpec | admin/src/components/Applications.jsx:459 | the label has the name's length, no underscore, and upper-cases exactly the word starts of the spaced name |
| Applications.FormatFeatureNameIdempotent | admin/src/components/Applications.jsx:459 | formatting a formatted label changes nothing |
| Applications.FeatureImportancesData | admin/src/components/Applications.jsx:456-464 | no explanation gives no bars; otherwise at most one bar per feature, each above the 0.0001 threshold |
| Applications.FeatureItemsBounds | admin/src/components/Applications.jsx:460-463 | every kept bar's absolute value is the absolute value of its SHAP value and above the threshold |
| Applications.FeatureItemsAppend | admin/src/components/Applications.jsx:457-463 | mapping and filtering distribute over concatenation, so the order of the entries is kept |
| Applications.FeatureItemsSingle | admin/src/components/Applications.jsx:458-463 | one entry gives one labelled bar iff its magnitude exceeds the threshold |
| Applications.FeatureItems | admin/src/components/Applications.jsx:457-463 | each entry is labelled and paired with its absolute value, and only entries above 0.0001 in absolute value are kept, in order |
| Applications.View.constructor | admin/src/components/Applications.jsx:343-348 | the page starts loading with no applications, error or modal |
| Applications.View.FetchApplications | admin/src/components/Applications.jsx:353-383 | without a token the login prompt; success replaces the list; failure keeps it and shows the caught message; loading ends |
| Applications.View.OpenUpdateModal | admin/src/components/Applications.jsx:389-392 | opening selects the application and shows the modal |
| Applications.View.CloseUpdateModal | admin/src/components/Applications.jsx:394-398 | closing hides the modal, drops the selection and clears the error |
| Applications.View.HandleStatusUpdateSubmit | admin/src/components/Applications.jsx:400-424 | a 200 reply closes the modal, reloads the list and navigates to /applications; a failure shows the server error or the fallback and changes nothing else |
| Applications.View.Render | admin/src/components/Applications.jsx:426-455 | loading, then error, then the empty message iff there are no applications, else every application |
| Applications.View.UpdateFormShown | admin/src/components/Applications.jsx:633-634 | the status form is rendered when the modal flag is set and an application is chosen, beside the list (not during loading or an error) |
| Applications.RejectedUpdateScenario | admin/src/components/Applications.jsx:400-440 | a refused status update leaves the page showing the server's error |
| StatusUpdateModal.OptionLabel | admin/src/components/StatusUpdateModal.jsx:35 | a label is its status with the first character upper-cased |
| StatusUpdateModal.OptionLabels | admin/src/components/StatusUpdateModal.jsx:33-37 | one label per valid status, in order |
| StatusUpdateModal.OptionLabelsText | admin/src/components/StatusUpdateModal.jsx:7 | the options read Pending, Approved, Rejected, Disbursed |
| StatusUpdateModal.Form.constructor | admin/src/components/StatusUpdateModal.jsx:4-5 | the selection starts at the application's status, or "pending" when it has none, with an empty note |
| StatusUpdateModal.Form.ChangeStatus | admin/src/components/StatusUpdateModal.jsx:29 | choosing sets the status |
| StatusUpdateModal.Form.ChangeNote | admin/src/components/StatusUpdateModal.jsx:49 | typing sets the note |
| StatusUpdateModal.Form.HandleSubmit | admin/src/components/StatusUpdateModal.jsx:9-12 | the parent receives the application id, the selected status and the note |
| StatusUpdateModal.Form.ControlsDisabled | admin/src/components/StatusUpdateModal.jsx:31-69 | the select, the note and both buttons are disabled exactly while loading |
| StatusUpdateModal.OffListStatusScenario | admin/src/components/StatusUpdateModal.jsx:4 | an application whose status is "fully_paid" opens with that off-list status selected and submits it |
| AdminApp.ProtectedRoute | admin/src/App.jsx:33-38 | the guarded page is shown iff logged in, and a redirect to /login otherwise |
| AdminApp.TrimTrailingSlashes | admin/src/App.jsx:46-58 | the result is a prefix of the path, does not end in a slash, and only slashes were removed |
| AdminApp.RoutePath | admin/src/App.jsx:46-58 | the location is matched case-insensitively and without trailing slashes: the matched form is non-empty and is "/" or ends in something other than a slash |
| AdminApp.RoutePathIgnoresTrailingSlashes | admin/src/App.jsx:46-58 | appending slashes to a location does not change the route it matches |
| AdminApp.RoutePathIgnoresCase | admin/src/App.jsx:46-58 | lower-casing a location does not change the route it matches |
| AdminApp.CanonicalPathUnchanged | admin/src/App.jsx:46-58 | a lower-case location without trailing slash is matched as written |
| AdminApp.RouteElement | admin/src/App.jsx:46-58 | the applications page shows iff the location matches /applications and the user is logged in; redirects happen exactly for a location matching / when logged in and /applications when not |
| AdminApp.ApplicationsPathVariants | admin/src/App.jsx:51-53 | /applications in any letter case and with any trailing slashes routes to the guarded page |
| AdminApp.RedirectTargetsShowAPage | admin/src/App.jsx:51-53 | every redirect lands on a route that shows a page |
| AdminApp.ApplicationsRoute | admin/src/App.jsx:53 | the /applications route is the guarded applications page |
| AdminApp.LoginRoute | admin/src/App.jsx:48 | the /login route is the login page |
| AdminApp.SameRouteSameElement | admin/src/App.jsx:46-58 | two locations that match the same route get the same element |
| AdminApp.ApplicationsOnlyWhenLoggedIn | admin/src/App.jsx:49-53 | the applications page is reached iff logged in and the location matches / or /applications (any case, any trailing slashes); logged out, both show the login page |
| AdminApp.NavbarProp | admin/src/App.jsx:43 | as mounted, the navbar receives no logged-in flag |
| AdminApp.NavbarPropCorrected | admin/src/components/Navbar.jsx:140 | corrected, the navbar receives the app's flag |
| AdminApp.Screen | admin/src/App.jsx:40-63 | navbar and footer appear iff logged in, and the main area is the route's element |
| AdminApp.ScreenCorrected | admin/src/App.jsx:40-63 | the same layout with the flag passed to the navbar |
| AdminApp.MountedNavbarOffersNoLogout | admin/src/App.jsx:43 | a logged-in administrator sees Login, Signup and Login and no Logout |
| AdminApp.CorrectedNavbarOffersLogout | admin/src/components/Navbar.jsx:225-277 | with the flag passed, a logged-in administrator sees the applications menu and Logout |
| AdminApp.FlagAfter | admin/src/App.jsx:13-25 | the logged-in flag after a run of events: each listened event sets it from the stored token and the others leave it |
| AdminApp.ListenedEventDecides | admin/src/App.jsx:14-25 | after any listened event the flag equals whether a token is stored |
| AdminApp.UnlistenedEventsKeepFlag | admin/src/App.jsx:13-31 | events nobody listens to leave the flag unchanged |
| AdminApp.Shell.constructor | admin/src/App.jsx:11 | the flag starts as whether a token is stored |
| AdminApp.Shell.Mount | admin/src/App.jsx:13-25 | mounting re-reads the token and adds both listeners |
| AdminApp.Shell.Unmount | admin/src/App.jsx:27-30 | unmounting removes both listeners |
| AdminApp.Shell.Dispatch | admin/src/App.jsx:14-16 | a listened event sets the flag from storage and any other event leaves it |
| AdminApp.Shell.Render | admin/src/App.jsx:40-63 | the shell shows the navbar iff logged in, and the current route's element |
| AdminApp.Shell.Apply | admin/src/App.jsx:13-31 | a handler's effects (setter, then events in order, then navigation) leave the flag and path given by FlagAfter |
| AdminApp.LogoutScenario | admin/src/components/Navbar.jsx:160-180 | from a stored session, logging out through a navbar that shows Logout (the corrected prop) leaves the app on the login page without navbar or footer, and no session stored |
| AdminNavbar.ApplicationsHighlighted | admin/src/components/Navbar.jsx:233 | the applications entry is highlighted iff the path is one of the application paths |
| AdminNavbar.IsActive | admin/src/components/Navbar.jsx:182 | a path is active iff it is exactly the current location |
| AdminNavbar.DesktopEntries | admin/src/components/Navbar.jsx:225-316 | Logout is offered iff the prop is true; otherwise Login, Signup and Login |
| AdminNavbar.Navbar.constructor | admin/src/components/Navbar.jsx:140-142 | both menus start closed |
| AdminNavbar.Navbar.ToggleMobileMenu | admin/src/components/Navbar.jsx:148-152 | the mobile menu flips, opening it closes the dropdown, and the menus stay exclusive |
| AdminNavbar.Navbar.ToggleApplicationsDropdown | admin/src/components/Navbar.jsx:154-158 | the dropdown flips, opening it closes the mobile menu, and the menus stay exclusive |
| AdminNavbar.Navbar.HandleLogout | admin/src/components/Navbar.jsx:160-180 | the session keys are removed, the setter receives true, app-logout is dispatched, /login is the target, and both menus close |
| AdminNavbar.Navbar.HandleClickOutside | admin/src/components/Navbar.jsx:185-197 | a click outside closes the dropdown when logged in and changes nothing otherwise |
| AdminNavbar.Navbar.HandleDropdownLinkClick | admin/src/components/Navbar.jsx:200-203 | following a dropdown link closes both menus |
| AdminNavbar.Navbar.Entries | admin/src/components/Navbar.jsx:225-316 | the bar offers Logout iff its isLoggedIn prop is true |
| AdminNavbar.HandlerSequence | admin/src/components/Navbar.jsx:148-203 | no sequence of handlers opens both menus at once |
| ClientNavbar.IsActive | client/src/components/Navbar.jsx:170 | a path is active iff it is exactly the current location |
| ClientNavbar.Navbar.constructor | client/src/components/Navbar.jsx:140-141 | the mobile menu starts closed |
| ClientNavbar.Navbar.ToggleMobileMenu | client/src/components/Navbar.jsx:145-147 | the mobile menu flips |
| ClientNavbar.Navbar.HandleLogout | client/src/components/Navbar.jsx:149-168 | the session keys are removed, the setter receives false, app-logout is dispatched and /login is the target |
| LoginForm.FailureMessage | client/src/components/Login.jsx:203-209 | a refused login shows the server's error or "Login failed"; no reply shows the network text |
| LoginForm.Form.ForAdmin | admin/src/components/Login.jsx:7-13 | the admin form starts empty, idle, and targets /applications |
| LoginForm.Form.ForClient | client/src/components/Login.jsx:168-174 | the client form starts empty, idle, and targets /dashboard |
| LoginForm.Form.ChangeEmail | admin/src/components/Login.jsx:16-19 | typing sets the e-mail |
| LoginForm.Form.ChangePassword | client/src/components/Login.jsx:177-180 | typing sets the password |
| LoginForm.Form.HandleSubmit | client/src/components/Login.jsx:182-213 | a 200 reply writes token, id and name, sets the flag, signals storage and navigates home; a failure writes nothing and shows FailureMessage; loading ends |
| Features.CreditCode | prediction_service.py:11 | a credit code is the mapping's value for a known name and 0 otherwise, always within 0..3 |
| Features.Columns | prediction_service.py:10 | the feature row lists exactly the six columns in the model's order, with the encoded credit history fourth |
| Features.Zip | prediction_service.py:111 | zip pairs names with values up to the shorter length |
| Features.Explain | prediction_service.py:101-116 | the explanation carries the explainer's base value and one (column, SHAP value) pair per column, in order |
| Features.ExplanationValue | predict.py:68-76 | the explanation is a dict of exactly base_value and feature_importances, whose keys are exactly the names of the importance pairs |
| Features.ToDict | predict.py:71-75 | a dict built from pairs has exactly the pairs' names as keys |
| Features.ToDictLastWins | predict.py:71-75 | the value under a name is the number of the last pair carrying that name |
| Features.ExplainedImportance | predict.py:68-76 | each trained column the explainer gave a value for carries exactly that SHAP value in feature_importances |
| PredictScript.MapCreditScore | predict.py:46-48 | a string is looked up as given (0 when unknown); a list or dict key raises TypeError |
| PredictScript.PreprocessInput | predict.py:51-62 | preprocessing succeeds iff every field and nested field is present, giving exactly those values in the model's columns; a missing amount raises KeyError and a non-dict TypeError |
| PredictScript.Recommendation | predict.py:94 | "approve" iff the score is below 0.3, "review" otherwise |
| PredictScript.NeverRejects | predict.py:94 | the script never recommends rejection |
| PredictScript.ScriptOutput | predict.py:92-97 | the printed result has exactly riskScore, recommendation and explanation |
| PredictScript.RunScript | predict.py:80-97 | given a classifier that returns a score, the script prints a result iff the input is complete, and the result is the model's score, its recommendation and the explanation |
| PredictionService.MapCreditScore | prediction_service.py:64-66 | a string is lower-cased and looked up; anything else raises AttributeError |
| Common.LowerIdempotent | prediction_service.py:66 | lower-casing twice equals lower-casing once |
| PredictionService.CreditMappingIgnoresCase | prediction_service.py:64-66 | the credit code does not depend on letter case |
| PredictionService.PreprocessInput | prediction_service.py:69-87 | preprocessing succeeds iff the input is a dict with a string credit history and a dict (or no) money history; missing values become None; failures are AttributeError |
| PredictionService.Recommendation | prediction_service.py:138-140 | "approved" iff below 0.3, "rejected" iff at least 0.7, "review" iff in between |
| PredictionService.RecommendationMonotone | prediction_service.py:138-140 | a higher risk never gets a milder recommendation |
| PredictionService.ExplainPrediction | prediction_service.py:90-116 | without an explainer the explanation is empty with base 0; with one it is Features.Explain |
| PredictionService.Service.constructor | prediction_service.py:8-9 | the service starts with neither model nor explainer |
| PredictionService.Service.LoadMlModelAndExplainer | prediction_service.py:15-61 | a loaded service is never reloaded; a successful load sets both; any failure leaves both unset |
| PredictionService.Service.GetLoanPrediction | prediction_service.py:120-151 | no model raises RuntimeError; bad input raises AttributeError; otherwise the result is the model's score, its recommendation and the explanation |
| PredictionService.LoadTwiceScenario | prediction_service.py:22-24 | a second load keeps the first model and explainer |
| Server.ValidStatusList | app.py:185-190 | the reply lists the four valid statuses in order |
| Server.Reply | app.py:84 | a reply carries its status unless serialisation fails, in which case it is a 500 |
| Server.ScanFindsWitness | app.py:119 | the scanning check implies the e-mail pattern matches a prefix |
| Server.WitnessPassesScan | app.py:119 | any prefix match passes the scanning check |
| Server.EmailPrefixOkMatchesPattern | app.py:119 | the scanning check holds iff `re.match` of the e-mail pattern succeeds |
| Server.EmailPrefixIgnoresSuffix | app.py:119 | appending anything to an accepted address keeps it accepted |
| Server.EmailPrefixOk | app.py:119 | the e-mail check as a scan: a first @ after a non-empty prefix, then a `.` inside the @-free run after it, neither first nor last in that run |
| Server.PyStr | app.py:80 | `str()` of a string is itself, and of an ObjectId its lower-case hex |
| Server.Lookup | app.py:123 | `find_one` returns the first matching document, or none when no document matches |
| Server.CheckPredictRequest | app.py:27-68 | a scoring request proceeds iff the body has every required field and the scorer exited 0 with a JSON object; each failure maps to its own status and message |
| Server.NewApplication | app.py:52-59 | the stored application is the request merged with the result, plus the caller's id, "pending" and the creation time |
| Server.WithId | app.py:59 | inserting adds a fresh `_id` only to a document without one |
| Server.CheckStatusRequest | app.py:176-190 | a status update proceeds iff the id passes `IsValidObjectId` and the body has a valid status; otherwise the matching 400 or exception |
| Server.UpdateData | app.py:193-200 | the `$set` holds exactly status, update time, and the note when given |
| Server.PreviousStatus | app.py:219 | the previous status is None without history, else the last entry's status |
| Server.PushHistory | app.py:227-236 | `$push` appends the entry to the history, creating it when missing, and fails on a non-array |
| Server.PreviousStatusReadMeansPushSucceeds | app.py:219-235 | once the previous status has been read, the history is absent or an array, so the `$push` that follows succeeds |
| Server.Cleaned | app.py:79-82 | a listed record has its `_id` as a string and no password, everything else unchanged |
| Server.Shown | app.py:100-103 | an owned record has its `_id` and `user_id` as strings, everything else unchanged |
| Server.Listed | app.py:76-84 | the listing cleans every record, in order |
| Server.OwnedIsExactlyTheCallersRecords | app.py:97-103 | my-applications lists exactly the caller's records |
| Server.Owned | app.py:97-103 | the caller's records in store order, each shown with its ids as text |
| Server.LoginReply | app.py:163-168 | a login reply has exactly the token, the user id as a string, and the name |
| Server.ReplaceKeepsApplicationsValid | app.py:203-206 | replacing a record by a well-formed one with the same id keeps the collection valid |
| Server.AppendKeepsApplicationsValid | app.py:59 | inserting a well-formed application whose `_id` is new keeps the collection valid |
| Server.ChangeRecord | app.py:217-224 | the log entry records previous and new status, editor, time and note |
| Server.NoteOf | app.py:223 | the note is the given note or None |
| Server.UpdatedReply | app.py:238-241 | the update reply has exactly the message and the application |
| Server.Store.constructor | app.py:22-26 | the database starts with empty collections |
| Server.Store.Predict | app.py:27-68 | failed checks store nothing and return their reply; an array `_id` is refused with a write error and an id clash with DuplicateKey, storing nothing; otherwise the application is appended once and the scorer's result returned |
| Server.Store.GetApplications | app.py:71-86 | an invalid identity fails; otherwise every application, cleaned, with status 200 |
| Server.Store.GetMyApplications | app.py:89-108 | the caller's applications with ids as strings, with status 200 |
| Server.CheckSignupRequest | app.py:111-117 | no body fails; an empty body or a missing field gives 400; a body `in` cannot search and a non-dict container holding the keys fail with TypeError; a dict goes on to the field checks; a registered user is well formed with an e-mail and id not yet stored; no refusal has status 201 |
| Server.CheckSignupFields | app.py:118-137 | a non-string e-mail fails with TypeError, a bad e-mail gives 400 and an existing one 409; for a new e-mail, a non-string password fails with AttributeError and a taken fresh id with DuplicateKey; otherwise the user document holds name, e-mail, hash, time and the fresh id |
| Server.SignupReply | app.py:140-145 | the 201 reply holds exactly the message, the token and the new id as text, and can be serialised |
| Server.AppendUserKeepsUsersValid | app.py:130-137 | adding a well-formed user whose e-mail and id are new keeps e-mails and ids distinct |
| Server.IsValidObjectId | app.py:179 | an id passes `ObjectId.is_valid` iff it has 24 characters and `bytes.fromhex` accepts it |
| Server.FromHexAccepts | app.py:179 | `bytes.fromhex` accepts pairs of hexadecimal digits, with ASCII whitespace allowed before each pair and at the end |
| Server.HexText | app.py:204-233 | `str(ObjectId(s))` is the id's hexadecimal digits in lower case, with the skipped whitespace dropped; it is never longer than the id and holds no whitespace |
| Server.FromHexGivesWholeBytes | app.py:179 | an accepted id's text is an even number of lower-case hexadecimal digits, i.e. whole bytes |
| Server.PlainHex | app.py:179 | without whitespace, an id is accepted iff it is an even number of hexadecimal digits, and its text is its lower-casing |
| Server.HexTextAppend | app.py:204-233 | the text of two pieces written one after the other is the concatenation of their texts |
| Server.FromHexAppend | app.py:179 | two accepted pieces written one after the other are accepted |
| Server.SpacesAreSkipped | app.py:179 | whitespace alone is accepted and contributes no digits |
| Server.SpacedIdIsValid | app.py:179 | 22 hexadecimal digits followed by two spaces form a valid id, whose text is the 22 digits in lower case |
| Server.GeneratedObjectIdIsCanonical | app.py:137-144 | a generated id is a valid ObjectId and its own text, so `str(user_id)` is the id |
| Server.Store.Signup | app.py:111-148 | a refused request returns the refusal and stores nothing; otherwise exactly one user, the one the checks built, is added and the 201 reply carries token and id; a user is added iff the status is 201 |
| Server.FoundUser | app.py:159 | a string e-mail finds a user with exactly that e-mail, or none exists; a dict e-mail is a query whose selected user is given |
| Server.Store.Login | app.py:151-171 | missing fields give 400; a body `in` cannot search or a non-dict container fails with TypeError; no found user or a wrong password gives 401, a non-string password AttributeError, and a match LoginReply |
| Server.Store.UpdateApplicationStatus | app.py:174-244 | a refused request or unknown id changes nothing and gets its reply; a found record changes as ChangeStatusAt states, including its partial-write outcomes |
| Server.Store.ChangeStatusAt | app.py:203-241 | the `$set` is kept on every path; if reading the previous status raises (which it does for every history that is present and not an array) or the identity is not an ObjectId, nothing is logged or pushed and the reply is 500; otherwise one log entry and one history entry are written and the reply is `Reply` of the record between the two writes, which is a 500 when that record cannot be serialised (as after any earlier update, whose history entry holds an ObjectId) |
| Server.Store.StatusChangeNeverFailsToWrite | app.py:213-235 | no status change answers with a failed `$push` |
| Server.HistoryEntry | app.py:230-234 | a history entry holds exactly status, time and editor |
| Server.SetKeepsWellFormed | app.py:203-206 | `$set` with a valid status keeps the record well formed and its id |
| Server.PushKeepsWellFormed | app.py:227-236 | `$push` keeps the record well formed and its id |
| Server.ListingAfterUpdateFails | app.py:227-236 | as written, listing a record after its first status change raises TypeError |
| Server.UpdateReplyAfterEarlierUpdate | app.py:213-241 | once a record holds a history entry, the reply to any later status update of it fails to serialise, so it is a 500 after all three writes |
| Server.ListingAfterUpdateCorrected | app.py:76-84 | with ids encoded, the same listing answers 200 |
| SignupForm.ValidateEmail | client/src/components/Signup.jsx:25-28 | the e-mail regex as a scan: a single @, not first, no whitespace anywhere, and a `.` after the @ that is neither the domain's first character nor the address's last |
| SignupForm.ScanFindsMatch | client/src/components/Signup.jsx:25-28 | the scanning validator implies the anchored e-mail pattern matches |
| SignupForm.MatchPassesScan | client/src/components/Signup.jsx:25-28 | every match of the pattern passes the validator |
| SignupForm.ValidateEmailMatchesPattern | client/src/components/Signup.jsx:25-28 | the validator holds iff the regex matches the whole address |
| SignupForm.ValidEmailShape | client/src/components/Signup.jsx:25-28 | a valid address has one @ not at the start, no whitespace, and a dot at least two characters after the @ and before the last character |
| SignupForm.WhitespaceRejected | client/src/components/Signup.jsx:27 | any whitespace character makes the address invalid |
| SignupForm.SecondAtRejected | client/src/components/Signup.jsx:27 | a second @ makes the address invalid |
| SignupForm.CheckSignupForm | client/src/components/Signup.jsx:38-57 | no message iff all fields are filled, the e-mail is valid and the password has six characters; each message iff its condition is the first failed |
| SignupForm.PasswordBoundary | client/src/components/Signup.jsx:52 | six characters pass and five are refused |
| SignupForm.Form.constructor | client/src/components/Signup.jsx:6-13 | the form starts empty and idle |
| SignupForm.Form.HandleChange | client/src/components/Signup.jsx:17-23 | a change sets its field and leaves the other two |
| SignupForm.Form.Payload | client/src/components/Signup.jsx:63 | the request body is exactly name, email and password |
| SignupForm.Form.HandleSubmit | client/src/components/Signup.jsx:30-98 | a request is sent iff the checks pass; 201 stores the session and goes to /dashboard; failures show ExplainedFailure; loading ends |
| SignupForm.ShortPasswordScenario | client/src/components/Signup.jsx:52-57 | with a name and a valid e-mail, any password of one to five characters is refused before a request and writes nothing to storage |
| ApplyForm.WithField | client/src/components/Apply.jsx:22-28 | a change sets its field and keeps every other field |
| ApplyForm.WithMoneyField | client/src/components/Apply.jsx:31-40 | a nested change sets its field and keeps every other field |
| ApplyForm.WithFieldUnchanged | client/src/components/Apply.jsx:22-28 | setting a field to its current value changes nothing |
| ApplyForm.InitialFormIsIncomplete | client/src/components/Apply.jsx:6-15 | the initial form misses required fields, with credit history "none" |
| ApplyForm.NumberJson | client/src/components/Apply.jsx:67-72 | a parsed number is sent as a number and NaN as null |
| ApplyForm.Payload | client/src/components/Apply.jsx:65-74 | the body has exactly the five fields, numbers parsed and credit history as text |
| ApplyForm.Form.constructor | client/src/components/Apply.jsx:6-20 | the form starts at the initial form with no status or error |
| ApplyForm.Form.HandleChange | client/src/components/Apply.jsx:22-28 | the form becomes WithField of its previous value |
| ApplyForm.Form.HandleMobileMoneyChange | client/src/components/Apply.jsx:31-40 | the form becomes WithMoneyField of its previous value |
| ApplyForm.Form.HandleSubmit | client/src/components/Apply.jsx:43-127 | a request is sent iff required fields are present and a session exists; success resets the form and shows the result; each failure its message |
| ApplyForm.FilledFormScenario | client/src/components/Apply.jsx:43-109 | a filled form with a session sends exactly its payload |
| ApprovedApplications.Approved | admin/src/components/ApprovedApplications.jsx:10 | the filter is no longer than the list and keeps only approved records |
| ApprovedApplications.ApprovedCounts | admin/src/components/ApprovedApplications.jsx:10 | the filter keeps every approved record with its multiplicity and nothing else |
| ApprovedApplications.ApprovedMembership | admin/src/components/ApprovedApplications.jsx:10 | a record is kept iff it is present and approved |
| ApprovedApplications.ApprovedDistributes | admin/src/components/ApprovedApplications.jsx:10 | filtering keeps the order of the list |
| ApprovedApplications.ApprovedIdempotent | admin/src/components/ApprovedApplications.jsx:10 | filtering twice equals filtering once |
| ApprovedApplications.Header | admin/src/components/ApprovedApplications.jsx:27 | the header is the first eight characters of the id plus "...", or N/A |
| ApprovedApplications.CardFor | admin/src/components/ApprovedApplications.jsx:26-55 | the key is the id or the index; payment and balance both show the risk score |
| ApprovedApplications.HeaderLength | admin/src/components/ApprovedApplications.jsx:27 | a header is at most eleven characters |
| ApprovedApplications.CardsFrom | admin/src/components/ApprovedApplications.jsx:25-26 | one card per record, in order, keyed by position |
| ApprovedApplications.Render | admin/src/components/ApprovedApplications.jsx:19-26 | "none found" iff no record is approved; otherwise one card per approved record |
| RootSlice.Reduce | admin/src/redux/rootSlice.js:10-15 | each action sets its own field and keeps the other |
| RootSlice.DifferentKindsCommute | admin/src/redux/rootSlice.js:10-15 | a loading and an applications action commute |
| RootSlice.LaterActionWins | admin/src/redux/rootSlice.js:10-15 | of two actions of the same kind, the later one wins |
| RootSlice.InitialStoreShowsNoApproved | admin/src/redux/rootSlice.js:5-8 | the initial store makes the approved page show "none found" |
| RootSlice.Slice.constructor | admin/src/redux/rootSlice.js:5-8 | the slice starts loading with no applications |
| RootSlice.Slice.SetLoadingReducer | admin/src/redux/rootSlice.js:10-12 | setLoading sets the flag |
| RootSlice.Slice.SetApplicationsReducer | admin/src/redux/rootSlice.js:13-15 | setApplications sets the list |
| RootSlice.Slice.Dispatch | admin/src/redux/rootSlice.js:19 | dispatching leaves the state given by Reduce |
| Flows.ClientEmailPassesServer | app.py:119 | every address the signup page accepts passes the server's check |
| Flows.ServerAcceptsWhatClientRefuses | client/src/components/Signup.jsx:27 | the server accepts "a@b.c d" and "a@b.c@d", which the page refuses |
| Flows.ApplyPayloadHasRequiredFields | app.py:33-35 | every apply body has the server's required fields |
| Flows.ApplyPayloadIsScorable | prediction_service.py:69-87 | every apply body is preprocessed without error by both scorers |
| Flows.RecommendationRulesCompared | predict.py:94 | both scorers approve exactly below 0.3 and agree on review; at 0.7 and above the script says review and the service rejected |
| Flows.CreditEncodingsDiffer | predict.py:48 | "Good" is coded 0 by the script and 2 by the service |
| Flows.StatusListsAgree | admin/src/components/StatusUpdateModal.jsx:7 | the modal offers exactly the server's valid statuses |
| Flows.OffListStatusRefused | app.py:185-190 | a status outside the list is refused with 400 and the list of valid statuses |

## Left out

- Network, HTTP routing, JWT issuing and checking, and bcrypt are not modelled. Their results are parameters: identity, token issuer, `checkpw` and hash. MongoDB's `find_one`, `insert_one`, `$set` and `$push` are modelled on the `Store` fields (`Lookup`, the appends in `Predict` and `Signup`, `ChangeStatusAt`, `PushHistory`). Only the fresh ObjectIds and the clock are parameters.
- The subprocess call and the JSON parsing of its output are a `ScorerRun` parameter.
- Pickle, pandas, SHAP and `predict_proba` are opaque functions in `Model` and `Explainer`. Only their use is modelled.
- Floating point is modelled with reals.
  - `toFixed(2)` is approximated by `Ledger.RoundToCents`, which rounds half up.
  - `toLocaleString`, currency display and the bar-chart and JSX layout are left out.
- `setTimeout`, `alert`, `Date` values and `window` event plumbing outside App's listeners are left out. The outside-click `mousedown` listener is modelled only through its handler.
- String lengths count characters, not UTF-16 code units.
- `Common.Lower` maps ASCII letters only. Python's `str.lower` handles all of Unicode.
- `/api/me` (`app.py:247-260`) is not part of this model.
- The admin Signup page, `HomePage`, `Footer` and the client `App.jsx` are not part of this model.
- `model.py`, the training script, is not part of this model.
- The commented-out earlier versions in `Applications.jsx`, `Navbar.jsx` and the client `Login.jsx` are not modelled.
- predict.py's module-level model loading and background data (lines 13-42) are left out. The model and explainer are parameters of `PredictScript.RunScript`.
- Display-only fields on cards and forms are left out: applicant name, dates, colours and icons.
- Server.Store.Predict: of MongoDB's rules for a stored `_id`, only two are modelled: an array `_id` is refused, and a clashing `_id` raises a duplicate-key error. Other document restrictions (such as field names starting with `$`) and concurrency are not modelled.
- Server.Store.Login: MongoDB's query operators are not interpreted. For a dict e-mail such as `{"$ne": null}`, the user `find_one` selects is the `selected` parameter.
- PredictScript.RunScript: the classifier is a total function of the feature row. A `predict_proba` that raises on a null or non-numeric feature (a complete input whose values are `null`) is not modelled, so such an input yields a result here.
- AdminApp.RoutePath: React Router's matching is modelled for the four literal routes only. Case-insensitivity covers ASCII letters, and URL decoding is not modelled.
- Server.Store.UpdateApplicationStatus: the matched-count check after `$set` is modelled by the lookup before it. A concurrent deletion between the two is not modelled.
- AdminNavbar.HandlerSequence: it states only that the two menus are never open together. It does not state which one is open after a given sequence.
- Server.HexText: a valid id with whitespace holds fewer than 12 bytes. How the BSON encoder writes such an id into a query is not modelled; here it matches only a record whose id text equals its digits, which no generated id does. `bytes.fromhex`'s mapping of non-ASCII whitespace and digits to ASCII is not modelled either.

## Findings

| source | as written | input that shows it | evidently intended | confidence | as-written member | corrected member |
|---|---|---|---|---|---|---|
| app.py:227-236 | each status change pushes a history entry whose `changed_by` is a raw ObjectId. The listings at app.py:84 and app.py:105 convert only `_id` (and `user_id`) before `jsonify`. | update any application's status once, then list applications: jsonify raises TypeError, answered as 500 | the history entries are serialised, for example by storing or encoding `changed_by` as a string | not executed | Server.ListingAfterUpdateFails | Server.ListingAfterUpdateCorrected |
| client/src/components/Dashboard.jsx:87 | `handlePaymentSubmit` calls `fetchApplications`, which is local to the effect at lines 19-52 and not in scope, so a ReferenceError is raised and caught | any payment the server accepts with 200 | the list is reloaded and the modal closed, with no error shown | not executed | Dashboard.PaymentSuccessScenario | Dashboard.View.HandlePaymentSubmitCorrected |
| admin/src/App.jsx:43 | the navbar is mounted without its `isLoggedIn` prop, which it reads at admin/src/components/Navbar.jsx:140 to choose its entries | any logged-in administrator | the navbar shows the applications menu and Logout | not executed | AdminApp.MountedNavbarOffersNoLogout | AdminApp.CorrectedNavbarOffersLogout |
