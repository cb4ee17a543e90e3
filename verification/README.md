# AgriQCert in Dafny

AgriQCert is a certification portal for agricultural exports. Exporters (farmers) submit product
batches. A QA agency grades them. Importers (buyers) see the batches that carry a non-revoked
verifiable credential. This project models the parts of the system that carry logic:

- **Backend handlers** (`signup`, `login`, `addProductBatch`, `getUserDetails`, `getProducts`,
  and the user model) as pure transitions over an in-memory store. The store `Store.Db` holds the
  `users`, `product_batches` and `verifiable_credentials` relations as sequences, with the two
  SERIAL counters. SQL `WHERE`/`JOIN` become filters and per-batch joins over those sequences.
  `ORDER BY submission_date DESC` becomes a sort of the batches before the join.
- **Frontend routing and authentication**: `roleMap`, `authHeader`, `logout`,
  `isAuthenticated`, and the request side of `login`/`signup` in the auth context. Also the
  `ProtectedRoute` decision, the route table and `roleToPath` of `App.js`, the sign-in page's own
  `roleToPath` and its submit, and the sign-up page's signup-then-login sequence and redirect.
- **The portals' in-memory lists**:
  - QA approve/reject;
  - farmer upload, edit, delete and statistics;
  - the buyer catalogue filter and quality counts;
  - the QR scanner's lookup and five-entry history.

The library calls are modelled as follows:

- bcrypt and JWT are a record of functions (`Crypto.Crypto`: `hash`, `compare`, `sign`,
  `decode`). `Crypto.Sound` states the two facts about them that the lemmas use:
  - comparing a password with its own hash succeeds;
  - a signed token decodes to its claims.
- Any exception a handler catches is a `fault` flag on that handler: a failing database call,
  and also a throw from bcrypt or from `jwt.sign` (see "## Left out").
- The request's `req.user`, set by the authentication middleware, is the `Http.Caller` parameter.
- Clocks (`now()`, `Date.now()`, today's date), `parseFloat` and `toString` results, the fetch
  response and the scanned code are all parameters.

Where the code and the written design description disagree, the model follows the code:

- The QA agency's listing joins `users`, so it drops batches whose owner row is missing; it does
  not list "all batches".
- The importer's listing has one row per live credential, not one row per batch.
- The QA portal's statuses are pending/verified/rejected. The farmer portal's are
  uploaded/verified/purchased/rejected.
- The sign-in page sends an unknown role to `/`, while `App.js` sends it to `/login`.

## Model

| member | source | states |
|---|---|---|
| Store.FindUserByUsername | backend/models/userModel.js:3-6 | the row found has the requested username and is in the table; undefined exactly when no row has that username |
| Store.CreateUser | backend/models/userModel.js:8-15 | appends exactly one row and returns it; the row has the supplied username, email, full name, role and password hash, and an id no earlier row has; other relations untouched |
| Store.FindAfterCreate | backend/models/userModel.js:3-15 | after createUser a lookup of the username is defined, and when the name was free it returns the inserted row |
| AuthController.Signup | backend/controllers/authController.js:5-20 | DB error gives 500 with the store unchanged; a taken username gives 409 with the store unchanged; otherwise 201 with the new id, exactly one user appended with the submitted fields and `hash(password, 10)`; id validity and username uniqueness preserved |
| AuthController.Login | backend/controllers/authController.js:22-41 | DB error gives 500; unknown user gives 401 'Invalid username or password'; every other failure is that identical 401; success is 200 with the token signed over {userId, role} of a user with that name whose hash matches, expiring in 2h |
| AuthController.LoginAcceptsMatch | backend/controllers/authController.js:22-37 | with unique usernames, a stored user whose hash matches the submitted password gets 200 and exactly the token signed over that user's id and role for 2h |
| AuthController.LoginRejectsMismatch | backend/controllers/authController.js:27-31 | with unique usernames, a wrong password for an existing user gets the same 401 as an unknown username |
| AuthController.SignupTwiceConflicts | backend/controllers/authController.js:9-10 | a second signup with the same username yields 409 and leaves the store as the first signup left it |
| AuthController.SignupThenLogin | backend/controllers/authController.js:12-34 | with sound crypto, signup with a free name followed by login with the same password succeeds and the token decodes to the new id and the stored role |
| BatchController.AddProductBatch | backend/controllers/batchController.js:3-19 | DB error gives 500 and no insert; otherwise 201 with exactly one appended row owned by the caller's token id, with the four body fields copied; users and credentials untouched; id validity preserved |
| BatchController.OwnerComesFromToken | backend/controllers/batchController.js:4-5 | the outcome depends on the caller only through its token id: neither its role nor an owner id in the body changes it |
| UserController.GetUserDetails | backend/controllers/userController.js:3-21 | DB error gives 500; 404 'User not found' exactly when no user has the token's id; otherwise 200 with the public columns of a user with that id (the profile type has no password field) |
| UserController.LookupIgnoresRole | backend/controllers/userController.js:4-9 | callers with the same token id get the same answer whatever their role |
| UserController.ProfileAfterSignup | backend/controllers/userController.js:7-16 | the id a successful signup returns resolves to a profile with the submitted username, email, full name and role |
| ProductController.QueryFor | backend/controllers/productController.js:10-43 | exporter, qa_agency and importer select their query; no query at all exactly for every other role |
| ProductController.SortNewestFirst | backend/controllers/productController.js:17 | the result is a permutation of the batches, ordered by submission date descending |
| ProductController.StaffRows | backend/controllers/productController.js:13-15 | one row per user the batch joins to, each carrying that user's full name and no QR column |
| ProductController.QrRows | backend/controllers/productController.js:33-37 | one row per live credential of the batch, carrying its QR URL |
| ProductController.CertifiedRows | backend/controllers/productController.js:32-39 | the inner join yields owners × live credentials rows, each pairing the batch with an owner's name and a live credential's QR URL |
| ProductController.BatchRows | backend/controllers/productController.js:12-39 | a row belongs to a batch's contribution exactly when it shows that batch and has the shape the query admits |
| ProductController.Listing | backend/controllers/productController.js:12-39 | a row is listed exactly when its batch is among the candidates and the query admits its shape |
| ProductController.GetProducts | backend/controllers/productController.js:3-52 | an unknown role gives 403 'Unauthorized role' with no query run; a DB error gives 500; otherwise 200 with rows newest first, each row's batch in the store and named after its owner's full name |
| ProductController.ListingOrdered | backend/controllers/productController.js:38 | rows follow their batches, so newest-first batches give newest-first rows |
| ProductController.ExporterSeesOnlyOwn | backend/controllers/productController.js:10-19 | every row an exporter gets has `exporter_id` equal to the caller's id, no QR column and the owner's name |
| ProductController.ExporterSeesAllOwn | backend/controllers/productController.js:12-16 | every batch the exporter owns whose owner row exists is listed under the owner's full name |
| ProductController.QaSeesAll | backend/controllers/productController.js:21-28 | every batch that joins to a user is listed for qa_agency, whoever owns it |
| ProductController.ImporterSeesOnlyCertified | backend/controllers/productController.js:30-39 | every importer row pairs a stored batch, its owner's name and the QR URL of one of its non-revoked credentials |
| ProductController.UncertifiedHidden | backend/controllers/productController.js:36-37 | a batch with no credential, or only revoked ones, never reaches an importer |
| ProductController.ImporterSeesEveryCredential | backend/controllers/productController.js:32-39 | every (batch, owner, non-revoked credential) triple is listed for an importer |
| ProductController.ListingCount | backend/controllers/productController.js:12-39 | a batch's rows appear once per occurrence of the batch, each time with its full per-batch join |
| ProductController.SingleOwner | backend/controllers/productController.js:15 | with distinct user ids a batch whose owner exists joins to exactly one user |
| ProductController.ImporterRowPerCredential | backend/controllers/productController.js:33-37 | with valid ids an importer sees a batch exactly once per non-revoked credential |
| ProductController.SubmittedBatchVisibleToOwnerOnly | backend/controllers/productController.js:10-19 | after alice submits a batch, alice's listing shows it and another exporter's never does |
| AuthContext.RoleMap | frontend/src/contexts/AuthContext.js:79-84 | farmer→exporter, qa→qa_agency, buyer→importer, identity on every other string |
| AuthContext.RoleMapNormalises | frontend/src/contexts/AuthContext.js:79-84 | the result is a backend role exactly for the six known strings; backend names are fixed; the map is idempotent |
| AuthContext.AuthHeader | frontend/src/contexts/AuthContext.js:75-77 | empty without a (non-empty) token; otherwise exactly one header, `Authorization: Bearer <token>` |
| AuthContext.AuthHeaderMatchesSession | frontend/src/contexts/AuthContext.js:60 | a header is sent exactly when the session counts as authenticated, and it carries the token back |
| AuthContext.IsAuthenticated | frontend/src/contexts/AuthContext.js:60 | `Boolean(token)`: signed in exactly when a non-empty token is held (its consequences are stated by AuthHeaderMatchesSession, Logout and LoginThenLogout) |
| AuthContext.Logout | frontend/src/contexts/AuthContext.js:52-55 | afterwards there is no user, the session is not authenticated and no header is sent |
| AuthContext.ErrorText | frontend/src/contexts/AuthContext.js:31 | a non-empty server error is shown as is; an absent or empty one gives exactly the fallback ('Login failed' / 'Signup failed') |
| AuthContext.Login | frontend/src/contexts/AuthContext.js:24-38 | a non-ok answer throws the server's error or 'Login failed' and leaves the session unchanged; an ok answer whose token payload decodes always logs in, storing the token and taking id and role from the payload and the username from the form; an ok answer whose payload cannot be read throws and leaves the session unchanged |
| AuthContext.SignupRequest | frontend/src/contexts/AuthContext.js:40-46 | the posted body carries `roleMap(role)` and the form's other fields unchanged |
| AuthContext.Signup | frontend/src/contexts/AuthContext.js:47-49 | returns the server's data exactly on an ok answer; otherwise throws the server's error or 'Signup failed' |
| AuthContext.FromReply | frontend/src/contexts/AuthContext.js:30-31 | `res.ok` holds exactly for a handler success, whose body is the data; a failure body carries the handler's error text |
| AuthContext.LoginThenLogout | frontend/src/contexts/AuthContext.js:52-60 | a successful login authenticates the session and a logout after it signs out again |
| AppRoutes.RoleToPath | frontend/src/App.js:22-27 | both spellings of each role go to the same portal; unknown or absent roles go to /login, and only those |
| AppRoutes.ProtectedRoute | frontend/src/App.js:15-20 | signed out always redirects to /login whatever the guard; without a guard only authentication is checked; with one, render exactly when the role is listed, else redirect to roleToPath(role) |
| AppRoutes.AllowedRoles | frontend/src/App.js:40-63 | exactly /farmer, /qa and /buyer carry a guard, each listing two known role strings |
| AppRoutes.Visit | frontend/src/App.js:35-64 | the path is matched after lower-casing and dropping trailing slashes, as a `<Route>` without `caseSensitive` does; then /, /login, /signup and /scanner render for everyone; every other unguarded path redirects to /; a guarded portal sends a signed-out visitor to /login, and renders for a signed-in user exactly when the user's role is in its allowedRoles; every redirect targets the home page, /login or a portal |
| AppRoutes.StripTrailingSlashes | frontend/src/App.js:35-64 | the result is the pathname without its trailing slashes (only slashes are removed, and no remaining path longer than "/" ends in one) |
| AppRoutes.VisitIgnoresCaseAndTrailingSlash | frontend/src/App.js:35-64 | "/Farmer" and "/farmer/" end up where "/farmer" does: a trailing slash and letter case never change a visit |
| AppRoutes.GuardedVisitRenders | frontend/src/App.js:40-63 | a signed-in user whose role a portal's guard lists is shown that portal |
| AppRoutes.RoleToPathAdmits | frontend/src/App.js:40-62 | each of the six known role strings is admitted by the guard of the route roleToPath sends it to |
| AppRoutes.RedirectSettles | frontend/src/App.js:15-64 | every redirect of the route table lands on a route that renders, so no redirect loops |
| AppRoutes.RoleMapKeepsPath | frontend/src/App.js:22-27 | roleMap never changes where roleToPath sends a role |
| LoginPage.RoleToPath | frontend/src/pages/auth/Login.js:6-11 | agrees with App.js on the six known roles and sends every other role to / |
| LoginPage.RoleToPathTablesDiffer | frontend/src/pages/auth/Login.js:10 | the two tables differ exactly on unknown roles |
| LoginPage.Submit | frontend/src/pages/auth/Login.js:22-34 | loading is false after either outcome; it navigates (replace) to roleToPath of the returned role exactly on success; on failure the error is the message |
| LoginPage.Start | frontend/src/pages/auth/Login.js:22-24 | submitting clears the previous error and turns the spinner on |
| LoginPage.SpinnerOnlyWhilePending | frontend/src/pages/auth/Login.js:22-34 | the spinner is on while the request is pending and off after either outcome; a successful retry clears a stale error |
| LoginPage.SignInLandsWithoutRedirect | frontend/src/pages/auth/Login.js:27-28 | after a successful sign-in with a known role the target route renders for the new session |
| SignupPage.RedirectFor | frontend/src/pages/auth/Signup.js:29-30 | the redirect is always one of the three portals |
| SignupPage.DefaultRoleIsFarmer | frontend/src/pages/auth/Signup.js:9-15 | the preselected role "farmer" is one of the select's options (Signup.js:68-70), is stored as exporter and leads to /farmer |
| SignupPage.RedirectMatchesLogin | frontend/src/pages/auth/Signup.js:29-30 | for the known roles it equals the sign-in page's roleToPath(roleMap(role)); anything else goes to /buyer |
| SignupPage.RedirectAdmitsStoredRole | frontend/src/pages/auth/Signup.js:67-71 | for each select option the redirect's guard admits the role the backend stored |
| SignupPage.Submit | frontend/src/pages/auth/Signup.js:21-36 | signup is called first with the mapped role; login follows with the same username and password only if signup succeeded; navigation exactly when both succeed; a failure sets the error; loading ends false |
| Journeys.SignupPageLandsOnOwnPortal | frontend/src/pages/auth/Signup.js:25-30 | driving the real handlers, sign-up with a free name and a select option stores the mapped role and navigates to a portal that renders |
| QaPortal.HandleQualityAssessment | frontend/src/portals/qa/QAPortal.js:107-125 | a no-op unless a product is selected and a rating chosen; then only the products with the selected id change (status verified, quality, date), length and order kept, and the modal, selection and rating are cleared |
| QaPortal.HandleReject | frontend/src/portals/qa/QAPortal.js:127-138 | only the products with the id become rejected; everything else, in the list and in the state, is unchanged |
| QaPortal.OpenApproval | frontend/src/portals/qa/QAPortal.js:290-293 | the approve button selects the product and opens the rating modal; nothing else changes |
| QaPortal.ChooseRating | frontend/src/portals/qa/QAPortal.js:400-428 | a rating button sets the chosen rating; nothing else changes |
| QaPortal.Select | frontend/src/portals/qa/QAPortal.js:278-282 | the eye button selects the product and nothing else; the modal stays as it was |
| QaPortal.SelectThenApprove | frontend/src/portals/qa/QAPortal.js:278-293 | viewing a product first makes no difference to opening the approval for any product |
| QaPortal.CloseQualityModal | frontend/src/portals/qa/QAPortal.js:436-441 | the Cancel button, like the overlay (:374) and the close button (:387), only hides the modal; the selection and the chosen rating stay |
| QaPortal.CancelledRatingCarriesOver | frontend/src/portals/qa/QAPortal.js:107-125 | after a cancelled assessment, approving another product verifies it with the earlier rating without a rating being chosen again |
| QaPortal.ActionsOffered | frontend/src/portals/qa/QAPortal.js:285-305 | the approve and reject buttons are rendered exactly for pending products |
| QaPortal.DecisionWithdrawsActions | frontend/src/portals/qa/QAPortal.js:112-138 | after a product is approved through the modal or rejected, its approve/reject buttons are no longer offered |
| QaPortal.FilteredProducts | frontend/src/portals/qa/QAPortal.js:140-146 | a subsequence of the products keeping exactly those the status filter and the lower-cased search over name, farmer or type admit |
| Text.Matches | frontend/src/portals/qa/QAPortal.js:142-144 | the search test: `field.toLowerCase().includes(term.toLowerCase())` (lower-casing stated under Left out) |
| Text.SearchHits | frontend/src/portals/farmer/FarmerPortal.js:199-201 | a record matches the search when any one of the fields the portal searches matches; all three portals use it |
| Text.IncludesIffWindow | frontend/src/portals/buyer/BuyerPortal.js:106-108 | the recursive `includes` holds exactly when the term occurs as a contiguous window of the field, in both directions |
| QaPortal.CountsPartition | frontend/src/portals/qa/QAPortal.js:148-150 | pending + verified + rejected counts equal the number of products |
| QaPortal.UpdateOneCount | frontend/src/portals/qa/QAPortal.js:109-119 | with unique ids, changing one product moves it from its old status count to its new one |
| QaPortal.ApprovalMovesCounts | frontend/src/portals/qa/QAPortal.js:107-150 | approving a pending product moves one from the pending count to the verified count |
| QaPortal.RejectionMovesCounts | frontend/src/portals/qa/QAPortal.js:127-150 | rejecting a pending product moves one from the pending count to the rejected count |
| QaPortal.ApproveFlowVerifies | frontend/src/portals/qa/QAPortal.js:285-296 | the approve button, a rating and confirm verify the product and close the modal |
| QaPortal.ShowAllShowsEverything | frontend/src/portals/qa/QAPortal.js:140-146 | 'all' with an empty search shows the whole list |
| FarmerPortal.Upload | frontend/src/portals/farmer/FarmerPortal.js:143-175 | prepends exactly one product (uploaded, no quality, rating, views and revenue 0, the form's fields and parsed price) before the unchanged list; the form resets to its defaults and is hidden; `editing` is not consulted |
| FarmerPortal.StartUpload | frontend/src/portals/farmer/FarmerPortal.js:143-145 | the spinner turns on before the simulated request; nothing else changes |
| FarmerPortal.UploadSpinner | frontend/src/portals/farmer/FarmerPortal.js:143-175 | the spinner is on while the upload is pending, and the completed upload is the same whether or not the start step ran, with the spinner off |
| FarmerPortal.Edit | frontend/src/portals/farmer/FarmerPortal.js:177-190 | remembers the product, copies all eight fields into the form (the price as its text) and shows the form; nothing else in the state changes |
| FarmerPortal.CancelForm | frontend/src/portals/farmer/FarmerPortal.js:399-412 | hides and resets the form and forgets the edited product; nothing else changes |
| FarmerPortal.ToggleUploadForm | frontend/src/portals/farmer/FarmerPortal.js:228-234 | the header button only flips the form's visibility; the form contents and the edited product stay |
| FarmerPortal.OpenUploadForm | frontend/src/portals/farmer/FarmerPortal.js:623-630 | the empty list's "Add Product" button only shows the form |
| FarmerPortal.OpenThenToggle | frontend/src/portals/farmer/FarmerPortal.js:228-630 | opening the form from the empty list and pressing the header button hides it again with nothing else changed |
| FarmerPortal.ToggleAfterEdit | frontend/src/portals/farmer/FarmerPortal.js:177-190 | two presses restore the state; one press after Edit hides the form but leaves the edit pending with the form filled |
| FarmerPortal.EditThenCancel | frontend/src/portals/farmer/FarmerPortal.js:177-190 | cancelling right after Edit leaves the state as cancelling without the edit would: the edit is discarded and the products are untouched |
| FarmerPortal.AskDelete | frontend/src/portals/farmer/FarmerPortal.js:535-541 | the trash button only records the id awaiting confirmation; nothing else changes |
| FarmerPortal.CancelDelete | frontend/src/portals/farmer/FarmerPortal.js:658-663 | the Cancel button, like the overlay (:644), drops the pending id and changes nothing else |
| FarmerPortal.AskThenCancel | frontend/src/portals/farmer/FarmerPortal.js:535-663 | asking and then cancelling leaves the products and everything else as they were, with no confirmation pending |
| FarmerPortal.Delete | frontend/src/portals/farmer/FarmerPortal.js:192-195 | a subsequence keeping exactly the products with another id; the confirmation closes; nothing else changes |
| FarmerPortal.UploadThenDelete | frontend/src/portals/farmer/FarmerPortal.js:150-195 | deleting a freshly uploaded id restores the list |
| FarmerPortal.EditSubmitDuplicates | frontend/src/portals/farmer/FarmerPortal.js:143-190 | submitting an edit as written grows the list by one and keeps the original product |
| FarmerPortal.SubmitForm | frontend/src/portals/farmer/FarmerPortal.js:143-190 | uploads when nothing is edited; while editing, updates the products with the edited id in place and leaves the rest and the length unchanged |
| FarmerPortal.EditSubmitReplaces | frontend/src/portals/farmer/FarmerPortal.js:177-190 | with the fix, editing a listed product and submitting rewrites exactly that product |
| FarmerPortal.FilteredProducts | frontend/src/portals/farmer/FarmerPortal.js:197-205 | a subsequence keeping exactly the products the tab, the search over name/type/location and the type select admit |
| FarmerPortal.AddAll | frontend/src/portals/farmer/FarmerPortal.js:207 | insertion into an ordered set: existing entries keep their place, no duplicates, membership is the union |
| FarmerPortal.ProductTypes | frontend/src/portals/farmer/FarmerPortal.js:207 | duplicate-free, no longer than the list, and contains exactly the types some product has |
| FarmerPortal.DistinctTypesKept | frontend/src/portals/farmer/FarmerPortal.js:207 | with pairwise different types the list of types comes back in product order |
| FarmerPortal.ComputeStats | frontend/src/portals/farmer/FarmerPortal.js:109-116 | totalProducts is the list length |
| FarmerPortal.MissingCountsZero | frontend/src/portals/farmer/FarmerPortal.js:110-115 | missing revenue and views add nothing to the totals |
| FarmerPortal.StatsAfterUpload | frontend/src/portals/farmer/FarmerPortal.js:150-162 | an upload adds one product and leaves total revenue and views unchanged |
| FarmerPortal.StatsAfterDelete | frontend/src/portals/farmer/FarmerPortal.js:192-195 | a delete lowers the count and each total by exactly what the removed products contributed |
| FarmerPortal.TabCountMatchesListing | frontend/src/portals/farmer/FarmerPortal.js:471-489 | with no search and no type selected, a status tab lists exactly as many products as its badge counts |
| FarmerPortal.TabCountsAfterUpload | frontend/src/portals/farmer/FarmerPortal.js:475 | an upload adds one to the pending badge and leaves the others alone |
| BuyerPortal.FilteredProducts | frontend/src/portals/buyer/BuyerPortal.js:104-110 | a subsequence keeping exactly the products the quality button and the search over name/farmer/type admit |
| BuyerPortal.ShowAllShowsEverything | frontend/src/portals/buyer/BuyerPortal.js:105-108 | 'all' with an empty search shows the whole catalogue |
| BuyerPortal.StatCardsPartition | frontend/src/portals/buyer/BuyerPortal.js:112-114 | Excellent + Good + Medium counts plus the products of any other quality equal the list length |
| BuyerPortal.StatCardsBounded | frontend/src/portals/buyer/BuyerPortal.js:112-114 | the three cards add up to at most the list length minus the 'Poor' products |
| BuyerPortal.ButtonCountMatchesListing | frontend/src/portals/buyer/BuyerPortal.js:187-207 | with an empty search a quality button lists exactly as many products as its badge counts |
| BuyerPortal.ViewProduct | frontend/src/portals/buyer/BuyerPortal.js:307-310 | selects the product and opens the modal; nothing else in the state changes |
| BuyerPortal.CloseModal | frontend/src/portals/buyer/BuyerPortal.js:415 | the close button hides the modal; the selection and everything else stay |
| BuyerPortal.ModalCartDisabled | frontend/src/portals/buyer/BuyerPortal.js:419-422 | the modal's Add to Cart is disabled exactly when the selected product is unavailable |
| BuyerPortal.CardAndModalAgree | frontend/src/portals/buyer/BuyerPortal.js:315-318 | the modal opened from a card gates Add to Cart exactly as the card does, on availability |
| Quality.QualityColor | frontend/src/portals/buyer/BuyerPortal.js:89-102 | Excellent is the success colour, Good primary, Medium warning, Poor error, and gray exactly for every other value |
| Quality.GradeColorsDistinct | frontend/src/portals/buyer/QRScanner.js:92-105 | different grades get different colours |
| QrScanner.DatabaseWellFormed | frontend/src/portals/buyer/QRScanner.js:26-72 | every key of the product table equals its entry's id; all three entries are graded |
| QrScanner.MockCodeIsKnown | frontend/src/portals/buyer/QRScanner.js:78 | the simulated camera's code is always a hit |
| QrScanner.StartScan | frontend/src/portals/buyer/QRScanner.js:75 | scanning is on and nothing else changes |
| QrScanner.FinishScan | frontend/src/portals/buyer/QRScanner.js:77-89 | records the code and stops scanning; a hit shows the entry and puts it in front of the first four earlier entries; a miss shows 'Product not found in database' and keeps the history |
| QrScanner.HandleScan | frontend/src/portals/buyer/QRScanner.js:74-90 | history of at most five stays at most five |
| QrScanner.HistoryIsRecentHits | frontend/src/portals/buyer/QRScanner.js:81-84 | after any run of scans the history is the first five of the hits, most recent first, followed by the earlier history |

## Left out

- bcrypt and JWT internals: opaque functions. The lemmas that need them to agree assume
  `Crypto.Sound` as a precondition.
- The `db` module and the schema: not part of this model. Ids come from per-relation counters,
  and `created_at`/`submission_date` come from a `now` parameter. Foreign-key constraints are not
  modelled; a batch may name a missing user, and the join then drops it.
- The `authenticate` middleware is not part of this model. `req.user` is the `Caller` parameter,
  so "submitting a batch without authentication fails" is not stated.
- Express wiring (server.js, app.js, routes): plumbing. As written, backend/server.js:13-14
  mounts only the auth and batch routes. backend/routes/userRoutes.js:4 and
  backend/routes/productRoutes.js:4 import `authmiddleware`, while batchRoutes.js imports
  `authMiddleware`.
- ProductController.SortNewestFirst: ties in `ORDER BY submission_date DESC` have no defined
  order in SQL. The model fixes one order (insertion sort), and the lemmas state only the
  ordering, not positions among equal dates.
- The `fault` flag stands for every exception a handler's `catch` turns into 500, not only a
  database error. That includes `jwt.sign` without a `JWT_SECRET` (authController.js:32). One
  flag per handler does not say where the failure happened (for example between lookup and
  insert in `signup`).
- Request bodies are records whose fields are all present strings. In the source, a missing
  or non-string `password` makes `bcrypt.hash` or `bcrypt.compare` throw, which gives 500
  (authController.js:12, 29). A missing `username` is bound to the query as null and matches no
  row (authController.js:6, 26). The model does not represent such bodies, so it states nothing
  about them. For example, it does not predict a 500 where the source would give one.
- Concurrent signups racing on the same username are outside a sequential model.
- `fetch`, `localStorage` persistence and `navigator.clipboard`: I/O. The fetch response is a
  parameter.
- Token decoding (`atob`/`JSON.parse`) is a `decode` parameter. A failure there throws the
  library's own message, which the model replaces with a fixed text.
- FarmerPortal.ComputeStats: `averageRating` is left out. It is a floating-point division that
  yields NaN on an empty list.
- `parseFloat`, `toString`, `toFixed`/`toLocaleString`, `Date.now()` ids and date strings: their
  results are parameters.
- `setTimeout` delays and awaited requests: the time in between is not modelled. A handler that
  changes state before it waits has that step as its own member: FarmerPortal.StartUpload,
  QrScanner.StartScan, and LoginPage.Start, which Signup.js:22-24 repeats word for word. Every
  other handler is modelled by its completion.
- Setters that only store an input's value are state fields and have no member: the tab and
  filter buttons, the search boxes, the type select and the form inputs. They appear in the model
  only as the fields `tab`, `activeFilter`, `search`/`searchTerm`, `filterType` and `form`. Every
  button that sets anything else is a member of its own:
  - QaPortal: OpenApproval, Select (the eye button), ChooseRating and CloseQualityModal;
  - BuyerPortal: ViewProduct and CloseModal;
  - FarmerPortal: Edit, CancelForm, ToggleUploadForm, OpenUploadForm, AskDelete and CancelDelete.
- AppRoutes.RoutePath: letter case is folded on ASCII letters only. Percent-decoding and repeated
  slashes inside a pathname are not modelled.
- Text.Lower: `toLowerCase` is modelled on ASCII letters only. There is no Unicode case
  mapping.
- The QA portal's `getStatusColor`, the farmer portal's status icons and badges, the QR
  scanner's `getQualityIcon`, animations and rendering: presentational.
- The navbars, the home page and the three account pages: presentational or mock data.
- The QR scanner's camera always reads one hard-coded code. The model takes the code as a
  parameter and proves that the hard-coded one is in the table.

## Findings

| source | as written | input that shows it | evidently intended | confidence | as-written member | corrected member |
|---|---|---|---|---|---|---|
| frontend/src/portals/farmer/FarmerPortal.js:143-190 | `handleUpload` never reads `editingProduct`, so "Update Product" prepends a new product with a new id and leaves the edited original in place | click Edit on any listed product, then submit the form | the edited product is updated in place; the list keeps its length | not executed | FarmerPortal.EditSubmitDuplicates | FarmerPortal.EditSubmitReplaces |
