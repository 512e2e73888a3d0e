# FreeBridge business rules in Dafny

FreeBridge is a job marketplace between freelancers and companies: a React
client over a Flask + SQLAlchemy server. This project models its
business rules and proves properties about them:

- the server's token ledger, where companies buy tokens through Stripe and spend one per published vacancy;
- the application (postulación) lifecycle and company ratings of freelancers;
- single-use, expiring password-reset tokens;
- the freelancer and company profile routes, with their upload whitelists and partial updates;
- the deletion of an account together with the rows that hang off it;
- the client's session store and idle timeout, and its authentication context;
- the client's validators and list transforms: the vacancy card, the vacancy search, a company's own vacancy list, the freelancer dashboard's notifications, the token purchase dialog, the profile editor, the registration form and the reset-password page.

Server tables are sequences of row datatypes, kept in insertion order, so
SQLAlchemy's `.first()` is the first match. Each route is modelled twice:

- a function from the tables and the request to the reply and the new tables (`Outcome`);
- a method on the `Store.Database` class that updates the tables step by step, the way the route does, and whose `ensures` ties its result to that function.

Client components that keep state are classes whose methods update their fields. Their pure rules are functions, and the lemmas are stated over those functions.

Everything outside the program is an input: the clock, fresh uuids and random hex digits, Stripe's answers, the outcome of an API call, the user's answer to a confirmation dialog, and whether a mail was sent.

Files:

- `common.dfy`: `Option`, sequence filters, JavaScript string helpers and `parseInt`.
- `tables.dfy`: the rows, the tables and the lookups.
- Server: `token_ledger.dfy`, `vacancy_posting.dfy`, `applications.dfy`, `ratings.dfy`, `password_reset.dfy`, `profiles.dfy`, `account_deletion.dfy`.
- Client: `session_manager.dfy`, `session_timeout.dfy`, `auth_context.dfy`, `vacancy_card.dfy`, `vacancy_lists.dfy`, `freelance_dashboard.dfy`, `token_purchase.dfy`, `edit_freelancer_profile.dfy`, `auth_forms.dfy`.

Two gaps in the code shape the model:

- `create_payment_intent` reads `Config.TOKEN_PRICE_USD` and `Config.USD_TO_COP_RATE`, and `server-flask/utils/config.py` defines neither. The model takes the amount as an input.
- The ORM declarations lack `duracion_proyecto`, `hoja_vida`, `avatar` and `logo`. The routes read and write these fields anyway, and the model follows the routes' record shapes.

## Model

| member | source | states |
|---|---|---|
| TokenLedger.CompanyIdOf | server-flask/routes/routes_payment/payment.py:31-33 | the caller's company id exists iff some company row belongs to the caller |
| TokenLedger.GetTokenBalance | server-flask/routes/routes_payment/payment.py:25-61 | a non-Empresa caller gets 403 and a caller without a company gets 404, both with the tables unchanged; a company with a balance row gets it back unchanged; a company without one gets a new row of 5 available and 0 used; the reported total is available + used |
| TokenLedger.ServeGetTokenBalance | server-flask/routes/routes_payment/payment.py:25-58 | the route's get-or-create on the database ends in the reply and tables of GetTokenBalance |
| TokenLedger.GetTokenBalanceTwice | server-flask/routes/routes_payment/payment.py:36-46 | the starter grant happens once: a second query changes no table and reports the same counters |
| TokenLedger.QuantityOf | server-flask/routes/routes_payment/payment.py:73-75 | an absent quantity is 1; an integer is itself; JSON null or a string cannot be compared and gives an error |
| TokenLedger.PurchaseRecord | server-flask/routes/routes_payment/payment.py:100-110 | the recorded purchase has tipo "compra", estado "pendiente", the requested quantity and the intent id |
| TokenLedger.CreatePaymentIntent | server-flask/routes/routes_payment/payment.py:66-127 | an intent is created iff the caller is Empresa, the quantity is within 1..100 and the company exists; every other reply leaves the tables unchanged; success appends exactly one pending purchase |
| TokenLedger.ServeCreatePaymentIntent | server-flask/routes/routes_payment/payment.py:66-112 | the route on the database ends in the outcome of CreatePaymentIntent |
| TokenLedger.CreatePaymentIntentKeepsIntentsUnique | server-flask/routes/routes_payment/payment.py:99-112 | a fresh intent id keeps the intent ids of the purchases unique |
| TokenLedger.Credit | server-flask/routes/routes_payment/payment.py:178-182 | adds q to the available tokens of the company's first balance row; without a row nothing changes |
| TokenLedger.ConfirmPayment | server-flask/routes/routes_payment/payment.py:158-202 | credits iff the caller is Empresa, Stripe says "succeeded" and a pending purchase of the intent exists; that purchase becomes "completado"; any other reply leaves the tables unchanged |
| TokenLedger.ServeConfirmPayment | server-flask/routes/routes_payment/payment.py:158-191 | the route on the database ends in the outcome of ConfirmPayment |
| TokenLedger.ConfirmPaymentCreditsOnce | server-flask/routes/routes_payment/payment.py:167-191 | after a credit, no pending purchase of that intent is left, so confirming again finds nothing (404) and credits nothing |
| TokenLedger.ConfirmPaymentCreditsQuantity | server-flask/routes/routes_payment/payment.py:175-184 | a confirmation adds exactly the purchased quantity to the available tokens and leaves used tokens unchanged |
| TokenLedger.HandleSuccessfulPayment | server-flask/routes/routes_payment/payment.py:205-241 | no change without a company id, with a quantity ≤ 0 or without a purchase of the intent; otherwise the purchase becomes "completada" whatever its state, and the company is credited, a new balance holding the quantity being created if it has none |
| TokenLedger.ServeSuccessfulPayment | server-flask/routes/routes_payment/payment.py:205-237 | the handler on the database ends in the tables of HandleSuccessfulPayment |
| TokenLedger.HandleFailedPayment | server-flask/routes/routes_payment/payment.py:244-257 | only the estado of the intent's first purchase changes, to "fallida"; balances are untouched |
| TokenLedger.ServeFailedPayment | server-flask/routes/routes_payment/payment.py:244-253 | the handler on the database ends in the tables of HandleFailedPayment |
| TokenLedger.Webhook | server-flask/routes/routes_payment/payment.py:130-153 | other event types change nothing, and a failed payment never touches balances |
| TokenLedger.WebhookCreditsEveryDelivery | server-flask/routes/routes_payment/payment.py:216-226 | the success handler has no "already completed" guard: a second delivery of the same event credits the quantity again |
| TokenLedger.SuccessfulPaymentCredits | server-flask/routes/routes_payment/payment.py:220-237 | one delivery raises the company's available tokens by exactly the quantity |
| TokenLedger.SortNewestFirst | server-flask/routes/routes_payment/payment.py:273-274 | the result is ordered newest first and is a permutation of its input |
| TokenLedger.OfCompany | server-flask/routes/routes_payment/payment.py:272 | exactly the transactions of that company |
| TokenLedger.TransactionHistory | server-flask/routes/routes_payment/payment.py:262-298 | a history is returned iff the caller is Empresa with a company; it holds at most 50 of that company's transactions, newest first |
| TokenLedger.HistoryShowsNewest | server-flask/routes/routes_payment/payment.py:272-277 | a transaction left out of the history is no newer than any shown |
| VacancyPosting.NewVacancy | server-flask/routes/routes_vacancy/crear_vacante.py:43-52 | the inserted vacancy is "abierta", belongs to the company, and its duration defaults to "No especificado" |
| VacancyPosting.UsageRecord | server-flask/routes/routes_vacancy/crear_vacante.py:59-66 | the recorded transaction is a "uso" of 1 token, "completada" |
| VacancyPosting.CreateVacancy | server-flask/routes/routes_vacancy/crear_vacante.py:14-88 | guards in order: role 403, company 404; then 402 exactly when there is no balance row or fewer than 1 token, reporting 0 without a row; with a token, a missing required key gives 500 and all keys present give 201; every refusal leaves the tables unchanged |
| VacancyPosting.CreateVacancyEffect | server-flask/routes/routes_vacancy/crear_vacante.py:43-80 | a publication goes through only with a token and the required keys; it moves one token from available to used, appends the open vacancy and one usage record, changes no other table and reports the decremented balance |
| VacancyPosting.ServeCreateVacancy | server-flask/routes/routes_vacancy/crear_vacante.py:14-70 | the route's in-place decrement and inserts end in the outcome of CreateVacancy |
| VacancyPosting.CreateVacancyMovesOneToken | server-flask/routes/routes_vacancy/crear_vacante.py:54-56 | publishing lowers available by 1 and raises used by 1, so their sum is kept and available stays ≥ 0 |
| VacancyPosting.CreateVacancyNeedsBalanceRow | server-flask/routes/routes_vacancy/crear_vacante.py:27-40 | publishing never creates the starter balance: without a row the reply is 402 and nothing changes |
| LedgerInvariant.ApplyKeepsLedgerWellFormed | server-flask/routes/routes_vacancy/crear_vacante.py:27-56 | each ledger request (balance query, intent, confirmation, webhook, publication) keeps every counter non-negative and every recorded quantity positive |
| LedgerInvariant.ApplyAllKeepsLedgerWellFormed | server-flask/routes/routes_payment/payment.py:36-237 | any sequence of ledger requests keeps the ledger well formed (proof by induction over the sequence) |
| Applications.ApplyToVacancy | server-flask/routes/routes_post/postulacion.py:14-62 | guards in order: role 403, profile 404, unknown vacancy 404 (ApplyNoVacancy), existing pair 409 (ApplyDuplicate), each leaving the tables unchanged; success exactly when all pass, appending one "pendiente" application with the caller's id_free; the vacancy's state is not consulted |
| Applications.ServeApply | server-flask/routes/routes_post/postulacion.py:14-45 | the route on the database ends in the outcome of ApplyToVacancy |
| Applications.ApplyKeepsPairsUnique | server-flask/routes/routes_post/postulacion.py:28-45 | applying keeps at most one application per (freelancer, vacancy) |
| Applications.ApplyTwiceIsDuplicate | server-flask/routes/routes_post/postulacion.py:29-34 | a second application to the same vacancy gets 409 and adds nothing |
| Applications.UpdateStatus | server-flask/routes/routes_post/actualizar_estado.py:21-100 | only "aceptada" or "rechazada" pass (400 otherwise, before any lookup); an unknown application gives 404; a missing freelancer or vacancy gives the second 404 exactly when the application exists; success exactly when the decision is valid and the application, its freelancer and its vacancy exist, changing only that application's estado and echoing its id and new estado |
| Applications.ServeUpdateStatus | server-flask/routes/routes_post/actualizar_estado.py:21-96 | the in-place update ends in the outcome of UpdateStatus |
| Applications.UpdateStatusIgnoresMail | server-flask/routes/routes_post/actualizar_estado.py:69-96 | whether the mail was sent changes neither the tables nor the reply |
| Applications.DecisionCanBeReversed | server-flask/routes/routes_post/actualizar_estado.py:43-67 | with no guard on the current state, an accepted application can later be rejected |
| Applications.CancelApplication | server-flask/routes/routes_post/cancelar_postulacion.py:18-81 | guards in order: no freelancer profile 403, unknown application 404, another freelancer's application 403, a state other than "pendiente" 400 carrying that state, each leaving the tables unchanged; success exactly when all pass, removing exactly that application |
| Applications.ServeCancel | server-flask/routes/routes_post/cancelar_postulacion.py:18-71 | the route's delete ends in the outcome of CancelApplication |
| Applications.CancelKeepsPairsUnique | server-flask/routes/routes_post/cancelar_postulacion.py:70-71 | a withdrawal keeps pairs unique |
| Applications.CancelThenApplyAgain | server-flask/routes/routes_post/cancelar_postulacion.py:70-71 | after a withdrawal the duplicate check no longer finds the pair, so applying again succeeds |
| Ratings.ScoreAsWritten | server-flask/routes/routes_rating/calificacion.py:34-41 | the score check as written: a truthy value that is a Python int (booleans included) within 1..5 |
| Ratings.ScoreAsWrittenAcceptsTrue | server-flask/routes/routes_rating/calificacion.py:40 | JSON `true` passes the written check as the score 1 |
| Ratings.Score | server-flask/routes/routes_rating/calificacion.py:34-41 | accepts exactly the JSON integers in 1..5 |
| Ratings.ScoreAgreesOnIntegers | server-flask/routes/routes_rating/calificacion.py:40 | the intended check and the written one agree on every value except booleans |
| Ratings.Rate | server-flask/routes/routes_rating/calificacion.py:14-103 | guards in order, each reply stated: role 403, company 404, missing or empty id_post or untruthy puntuacion 400, a score the written check refuses 400, unknown application 404, not "aceptada" 400, vacancy missing or another company's 403, already rated 400; success exactly when all pass, appending one rating with the application's id_free, the caller's id_emp and the score as the code reads it (JSON true is 1); a refusal changes nothing |
| Ratings.ServeRate | server-flask/routes/routes_rating/calificacion.py:14-87 | the route on the database ends in the outcome of Rate |
| Ratings.RateKeepsRatingsWellFormed | server-flask/routes/routes_rating/calificacion.py:69-87 | rating keeps at most one rating per application, with every score in 1..5 |
| Ratings.SumScoresBounds | server-flask/routes/routes_rating/calificacion.py:116 | n scores in 1..5 sum to between n and 5n |
| Ratings.RoundDiv | server-flask/routes/routes_rating/calificacion.py:121 | Python's `round`: the nearest integer to a/n, and on a tie the even one |
| Ratings.RatingSummary | server-flask/routes/routes_rating/calificacion.py:107-131 | no ratings give promedio 0 and total 0; otherwise total is the count and promedio the average in tenths |
| Ratings.SummaryWithinScale | server-flask/routes/routes_rating/calificacion.py:111-121 | with stored scores in 1..5, a non-empty average lies between 1.0 and 5.0 |
| Ratings.CanRateProbe | server-flask/routes/routes_rating/calificacion.py:136-173 | true iff the caller is Empresa, the application has no rating, and the application exists and is "aceptada" |
| Ratings.RateImpliesProbe | server-flask/routes/routes_rating/calificacion.py:139-169 | whenever rating succeeds, the probe had answered true |
| Ratings.ProbeDoesNotCheckOwnership | server-flask/routes/routes_rating/calificacion.py:139-169 | the converse fails: the probe says true to a company that does not own the vacancy, and rating then gets 403 |
| Ratings.JoinRow | server-flask/routes/routes_rating/calificacion.py:199-232 | a join row exists iff the application's vacancy exists and belongs to the company and its freelancer exists |
| Ratings.WorkedMembership | server-flask/routes/routes_rating/calificacion.py:211-233 | an entry is listed exactly for a joined application whose estado lower-cases to "aceptada" |
| Ratings.WorkedRateableIffUnrated | server-flask/routes/routes_rating/calificacion.py:231 | a listed entry may be rated iff no rating is joined to it |
| Ratings.FreelancersWorked | server-flask/routes/routes_rating/calificacion.py:178-253 | 403 for a non-Empresa caller, 404 without a company; otherwise the loop builds exactly the list of accepted join rows, in order |
| PasswordReset.NewResetToken | server-flask/models/modelo_password_reset.py:15-20 | a new token is unused and expires `hours` hours after creation |
| PasswordReset.NewTokenValidForItsLifetime | server-flask/models/modelo_password_reset.py:15-24 | a fresh token is valid exactly at the instants before its expiry |
| PasswordReset.UsedTokenNeverValid | server-flask/models/modelo_password_reset.py:22-29 | a used token is invalid at every time |
| PasswordReset.ExpiredStaysExpired | server-flask/models/modelo_password_reset.py:24 | once expired, a token stays invalid as time advances |
| PasswordReset.PasswordResetToken.constructor | server-flask/models/modelo_password_reset.py:15-20 | `__init__` stores the fields, unused, expiring `expires_in_hours` after now |
| PasswordReset.PasswordResetToken.Valid | server-flask/models/modelo_password_reset.py:22-24 | `is_valid` holds iff unused and now is strictly before the expiry |
| PasswordReset.PasswordResetToken.MarkAsUsed | server-flask/models/modelo_password_reset.py:26-28 | sets the used flag and nothing else |
| PasswordReset.ForgotPassword | server-flask/routes/routes_auth/password_reset.py:24-161 | a missing email gives 400; otherwise the same 200 reply whether or not the account exists; a token row valid for one hour is added only for a registered email |
| PasswordReset.ServeForgotPassword | server-flask/routes/routes_auth/password_reset.py:24-63 | the route on the database ends in the outcome of ForgotPassword |
| PasswordReset.ForgotReplyRevealsNothing | server-flask/routes/routes_auth/password_reset.py:37-63 | the reply is the same for any two databases and any mail outcome |
| PasswordReset.ResetPassword | server-flask/routes/routes_auth/password_reset.py:165-214 | a missing or empty token or password gives 400, and exactly then; a short password gives 400 exactly when both are present; an unknown, used or expired token gives the same 400; with a usable token, 404 exactly when its e-mail has no user (token left unused) and success exactly when it has one, replacing that user's password and marking the token used |
| PasswordReset.ServeResetPassword | server-flask/routes/routes_auth/password_reset.py:165-205 | the route on the database ends in the outcome of ResetPassword |
| PasswordReset.ResetTokenSingleUse | server-flask/routes/routes_auth/password_reset.py:184-205 | a token that reset a password fails with the invalid-token error when used again |
| PasswordReset.ForgotThenReset | server-flask/routes/routes_auth/password_reset.py:37-205 | issuing a token and using it within the hour resets the password of the account it was issued for |
| Profiles.HasExtensionIn | server-flask/routes/routes_perfil/perfil_freelancer.py:21-29 | true iff the name has a '.' and the text after the last '.', lower-cased, is in the set |
| Profiles.LastExtension | server-flask/routes/routes_perfil/perfil_freelancer.py:21-22 | `rsplit(".", 1)[1]`: the text after the last '.', and none exactly when the name has no '.' |
| Profiles.AllowedFile | server-flask/routes/routes_perfil/perfil_freelancer.py:21-22 | a CV name passes iff its last extension, in any case, is pdf |
| Profiles.AllowedImage | server-flask/routes/routes_perfil/perfil_freelancer.py:25-29 | an image name passes iff its last extension, in any case, is png, jpg, jpeg, gif or webp |
| Profiles.AllowedFileExamples | server-flask/routes/routes_perfil/perfil_freelancer.py:21-22 | "cv.PDF" passes, "pdf" and "cv.pdf.exe" do not |
| Profiles.PathJoin | server-flask/routes/routes_perfil/perfil_freelancer.py:81 | POSIX `os.path.join` of a folder and a name: an absolute name replaces the folder, any other goes inside it |
| Profiles.StoredPath | server-flask/routes/routes_perfil/perfil_freelancer.py:80-81 | `os.path.join(folder, "<prefix><id_usu>_<hex>_<name>")`: inside the folder unless prefix and id_usu start with '/', in which case the folder is dropped |
| Profiles.CvPath | server-flask/routes/routes_perfil/perfil_freelancer.py:78-85 | CVs are stored under "uploads/hojas_vida/" as "<id_usu>_<hex>_<name>", except that an id_usu starting with '/' puts the file at that absolute path |
| Profiles.AvatarPath | server-flask/routes/routes_perfil/perfil_freelancer.py:167-170 | uploaded avatars are stored under "uploads/" with the prefix "avatar_" |
| Profiles.LogoFileName | server-flask/routes/routes_empresa/perfil_empresa.py:109-116 | the stored logo is the bare name "logo_<id_usu>_<hex>_<name>" with no folder |
| Profiles.CreateFreelancer | server-flask/routes/routes_perfil/perfil_freelancer.py:61-113 | profesion, id_ciud and id_usu are required (400, nothing inserted); the CV is stored only when its name passes, else null |
| Profiles.ServeCreateFreelancer | server-flask/routes/routes_perfil/perfil_freelancer.py:61-99 | the route on the database ends in the outcome of CreateFreelancer |
| Profiles.NextAvatar | server-flask/routes/routes_perfil/perfil_freelancer.py:155-175 | an accepted image part gives the new avatar path; a rejected part keeps the avatar; without a part, a non-empty avatar_default replaces it and otherwise it is kept |
| Profiles.UpdatedFreelancer | server-flask/routes/routes_perfil/perfil_freelancer.py:125-175 | keeps id_free and id_usu; profesion and id_ciud take the submitted value only when non-empty, experiencia whenever sent, the CV path only for an accepted PDF, and the avatar follows NextAvatar; every other case keeps the stored value |
| Profiles.OverwriteFreelancer | server-flask/routes/routes_perfil/perfil_freelancer.py:125-175 | overwriting the row field by field, as the route does, yields UpdatedFreelancer |
| Profiles.UpdateFreelancer | server-flask/routes/routes_perfil/perfil_freelancer.py:117-199 | an unknown id_free gives 404 and changes nothing; otherwise only that row is replaced by UpdatedFreelancer |
| Profiles.ServeUpdateFreelancer | server-flask/routes/routes_perfil/perfil_freelancer.py:117-180 | the field-by-field overwrite ends in the outcome of UpdateFreelancer |
| Profiles.EmptyFreelancerUpdateKeepsRow | server-flask/routes/routes_perfil/perfil_freelancer.py:125-175 | a form with nothing in it leaves the tables as they were |
| Profiles.UpdateFreelancerIdempotent | server-flask/routes/routes_perfil/perfil_freelancer.py:125-175 | resending the same form, even with fresh random digits for the uploads, leaves the tables that the second request alone would leave |
| Profiles.AvatarFileTakesPrecedence | server-flask/routes/routes_perfil/perfil_freelancer.py:155-175 | with an avatar file part present, the value of avatar_default does not matter |
| Profiles.CreateCompany | server-flask/routes/routes_empresa/perfil_empresa.py:55-71 | NIT, tamaño, desc_emp, id_ciud and id_usu are required; a missing key gives 400 and inserts nothing |
| Profiles.ServeCreateCompany | server-flask/routes/routes_empresa/perfil_empresa.py:55-66 | the route on the database ends in the outcome of CreateCompany |
| Profiles.UpdatedCompany | server-flask/routes/routes_empresa/perfil_empresa.py:83-116 | keeps id_emp and id_usu; NIT, tamaño, desc_emp and id_ciud each take the submitted value only when non-empty; the logo becomes the bare "logo_..." name for an accepted image and changes in no other case |
| Profiles.UpdateCompany | server-flask/routes/routes_empresa/perfil_empresa.py:75-141 | an unknown id_emp gives 404 and changes nothing; otherwise only that row is replaced by UpdatedCompany |
| Profiles.ServeUpdateCompany | server-flask/routes/routes_empresa/perfil_empresa.py:75-120 | the field-by-field overwrite ends in the outcome of UpdateCompany |
| Profiles.UpdateCompanyIdempotent | server-flask/routes/routes_empresa/perfil_empresa.py:83-116 | resending the same company form, even with fresh random digits for the logo, leaves the tables that the second request alone would leave |
| Profiles.EmptyCompanyUpdateKeepsRow | server-flask/routes/routes_empresa/perfil_empresa.py:83-98 | a form with no non-empty field and no accepted logo changes nothing |
| AccountDeletion.VacanciesOf | server-flask/routes/routes_auth/eliminar_cuenta.py:57 | exactly the vacancies of that company, in order |
| AccountDeletion.Cascade | server-flask/routes/routes_auth/eliminar_cuenta.py:22-80 | per role, the profile rows and the applications hanging off them are removed, then the user row; ratings, balances and transactions are kept |
| AccountDeletion.DeleteAccount | server-flask/routes/routes_auth/eliminar_cuenta.py:19-96 | a commit applies the whole cascade; a failure rolls back to the tables as they were |
| AccountDeletion.DeleteVacancies | server-flask/routes/routes_auth/eliminar_cuenta.py:59-63 | the loop removes each listed vacancy and every application to it, and nothing else |
| AccountDeletion.DeleteFreelancerRows | server-flask/routes/routes_auth/eliminar_cuenta.py:26-50 | the freelancer branch on the database ends in the cascade's tables and removes the CV and any uploaded avatar |
| AccountDeletion.DeleteCompanyRows | server-flask/routes/routes_auth/eliminar_cuenta.py:53-77 | the company branch on the database ends in the cascade's tables and removes the logo only under the guard as written, that is when the stored value starts "uploads/" |
| AccountDeletion.ServeDeleteAccount | server-flask/routes/routes_auth/eliminar_cuenta.py:19-96 | the route on the database ends in the outcome of DeleteAccount and removes the files of FilesToRemove: the freelancer's CV and uploaded avatar, or the company's logo under the guard as written |
| AccountDeletion.FreelancerCascade | server-flask/routes/routes_auth/eliminar_cuenta.py:26-50 | a freelancer's deletion removes exactly their applications, their profile and their user row |
| AccountDeletion.CompanyCascade | server-flask/routes/routes_auth/eliminar_cuenta.py:53-81 | a company's deletion removes exactly its vacancies, the applications to them, its profile and its user row |
| AccountDeletion.DeleteKeepsReferences | server-flask/routes/routes_auth/eliminar_cuenta.py:26-81 | if every application referred to an existing profile and vacancy before, that still holds after |
| AccountDeletion.LogoToRemoveAsWritten | server-flask/routes/routes_auth/eliminar_cuenta.py:66-74 | the logo guard as written: only a stored value starting "uploads/" is removed |
| AccountDeletion.StoredLogoNeverRemovedAsWritten | server-flask/routes/routes_auth/eliminar_cuenta.py:66-74 | no logo the profile route stores is ever removed by the written guard |
| AccountDeletion.StoredLogoSurvivesDeletion | server-flask/routes/routes_auth/eliminar_cuenta.py:65-74 | deleting a company whose logo the profile route stored removes no file |
| AccountDeletion.LogoToRemove | server-flask/routes/routes_empresa/perfil_empresa.py:100-104 | the corrected guard: the logo name joined to the logo folder by `os.path.join`, as the profile route resolves it |
| AccountDeletion.StoredLogoRemoved | server-flask/routes/routes_empresa/perfil_empresa.py:109-116 | the corrected guard removes exactly the file the profile route stored |
| AccountDeletion.AvatarToRemove | server-flask/routes/routes_auth/eliminar_cuenta.py:39-47 | a freelancer's avatar is removed only when it starts "uploads/" |
| AccountDeletion.UploadedAvatarRemoved | server-flask/routes/routes_auth/eliminar_cuenta.py:39-47 | every uploaded avatar is removed and no default avatar is |
| SessionManager.Storage.GetItem | client-react/src/utils/sessionManager.js:20-50 | `null` for an absent key, else the stored text |
| SessionManager.Storage.SetItem | client-react/src/utils/sessionManager.js:60-78 | writes one key and leaves the others |
| SessionManager.Storage.RemoveItem | client-react/src/utils/sessionManager.js:83-89 | removes one key and leaves the others |
| SessionManager.Lookup | client-react/src/utils/sessionManager.js:20-50 | a present key reads back its value, an absent one reads null |
| SessionManager.LastActivityOf | client-react/src/utils/sessionManager.js:52-55 | null when the key is absent or empty, else `parseInt` of the text |
| SessionManager.TimeSinceLastActivity | client-react/src/utils/sessionManager.js:117-121 | null without a recorded activity (a stored 0 or unreadable text counts as none), else now − lastActivity |
| SessionManager.SetLastActivity | client-react/src/utils/sessionManager.js:60-62 | the store gains the current time under lastActivity |
| SessionManager.SetSessionData | client-react/src/utils/sessionManager.js:72-78 | the store gains the four login values and the current time |
| SessionManager.ClearSession | client-react/src/utils/sessionManager.js:83-89 | removes exactly the five session keys |
| SessionManager.LastActivityReadsBack | client-react/src/utils/sessionManager.js:52-62 | a time written by setLastActivity reads back as the same number |
| SessionManager.TimeSinceWrite | client-react/src/utils/sessionManager.js:117-121 | after writing a non-zero time t, the elapsed time at now is now − t |
| SessionManager.SessionDataReadsBack | client-react/src/utils/sessionManager.js:72-97 | after setSessionData each getter returns the stored value, and a session is active iff the token is non-empty |
| SessionManager.ClearedHasNoSession | client-react/src/utils/sessionManager.js:83-97 | after clearSession every getter returns null, no session is active, and other keys such as "freelancerId" are untouched |
| SessionManager.SetLastActivityFrame | client-react/src/utils/sessionManager.js:60-62 | setLastActivity changes no key but lastActivity |
| SessionTimeout.ActivityUpdate | client-react/src/hooks/useSessionTimeout.js:27-31 | an authenticated user holding a token gets the current time written to the store; otherwise the store is unchanged |
| SessionTimeout.Expiration | client-react/src/hooks/useSessionTimeout.js:37-61 | no session exactly when no token; a bootstrap exactly when a session has no recorded activity, which records now; a timeout exactly when the elapsed time is strictly above the threshold, which clears the store; still active exactly when it is within it, leaving the store as it was |
| SessionTimeout.UpdateActivity | client-react/src/hooks/useSessionTimeout.js:27-31 | the hook's write on the auth provider's store ends in ActivityUpdate |
| SessionTimeout.CheckExpiration | client-react/src/hooks/useSessionTimeout.js:37-61 | the check ends in the result and store of Expiration, logging the provider out exactly on a timeout |
| SessionTimeout.TimedOutOnce | client-react/src/hooks/useSessionTimeout.js:39-59 | after a forced logout every later check is a no-op, so a session is logged out at most once |
| SessionTimeout.BootstrapKeepsSession | client-react/src/hooks/useSessionTimeout.js:43-60 | after a bootstrap, checks within the threshold keep the session; equality keeps it too |
| SessionTimeout.ActivityKeepsSession | client-react/src/hooks/useSessionTimeout.js:27-60 | activity at a non-zero time keeps the session alive at every check within the threshold after it |
| SessionTimeout.LastActivityNeverDecreases | client-react/src/hooks/useSessionTimeout.js:27-49 | under a clock that does not go back, neither activity nor a check lowers the stored time |
| AuthContext.ProfileRoute | client-react/src/context/AuthContext.jsx:102-117 | unauthenticated: "/login"; "Empresa": "/company-dashboard"; "FreeLancer": "/freelance-dashboard"; any other role: "/login" |
| AuthContext.AuthProvider.CheckAuth | client-react/src/context/AuthContext.jsx:55-66 | isAuthenticated becomes hasActiveSession, the role, id and name are copied from the store, and loading ends |
| AuthContext.AuthProvider.Login | client-react/src/context/AuthContext.jsx:72-78 | stores the session and sets the state to the given user, authenticated |
| AuthContext.AuthProvider.Logout | client-react/src/context/AuthContext.jsx:84-95 | clears the store and the state; navigates to "/" iff redirect |
| AuthContext.AuthProvider.NavigateToProfile | client-react/src/context/AuthContext.jsx:102-117 | navigates to ProfileRoute of the current state |
| AuthContext.ReloadAfterLogin | client-react/src/context/AuthContext.jsx:55-78 | a reload after login restores exactly the state login set iff the token is non-empty |
| AuthContext.ReloadAfterLogout | client-react/src/context/AuthContext.jsx:55-95 | a reload after logout restores exactly the signed-out state |
| VacancyCard.CardState | client-react/src/components/vacancyComponents/VacancyCard.jsx:68 | estado if non-empty, else estado_vac if non-empty, else "abierta" |
| VacancyCard.ButtonAudience | client-react/src/components/vacancyComponents/VacancyCard.jsx:72-75 | the button shows iff showApplyButton and the user is a visitor or a freelancer; a signed-in company never sees it |
| VacancyCard.OpenSpellings | client-react/src/components/vacancyComponents/VacancyCard.jsx:68-69 | a missing state and any capitalisation of "abierta" read as open; "cerrada" does not |
| VacancyCard.HandleApply | client-react/src/components/vacancyComponents/VacancyCard.jsx:38-57 | the sign-in alert iff unauthenticated, the freelancers-only alert iff signed in with another role, and onApply is called only for a freelancer with a callback |
| VacancyCard.EnabledButtonNeverAlerts | client-react/src/components/vacancyComponents/VacancyCard.jsx:42-75 | when the button is enabled (canApply), a click raises neither alert |
| VacancyCard.TimeAgo | client-react/src/components/vacancyComponents/VacancyCard.jsx:88-109 | null without a date; 0 gives "Hoy", 1 "Hace 1 día", below 7 "Hace d días", below 30 whole weeks, else whole months |
| VacancyCard.TimeAgoCounts | client-react/src/components/vacancyComponents/VacancyCard.jsx:107-108 | the week count is 1..4 and the month count at least 1, both agreeing with `Math.floor` |
| VacancyCard.FutureDateLabel | client-react/src/components/vacancyComponents/VacancyCard.jsx:106 | a date two days ahead is labelled "Hace -2 días" |
| VacancyCard.SalaryToFormat | client-react/src/components/vacancyComponents/VacancyCard.jsx:78-86 | null for a missing or zero salary, else the amount handed to the formatter |
| VacanciesView.FilterVacancies | client-react/src/components/vacancyComponents/VacanciesView.jsx:41-51 | a blank term gives every vacancy; otherwise exactly those whose lower-cased name contains the lower-cased term, and nameless ones are dropped; lower-casing covers the Basic Latin and Latin-1 capitals |
| VacanciesView.FilterVacanciesIdempotent | client-react/src/components/vacancyComponents/VacanciesView.jsx:41-51 | filtering the filtered list again changes nothing |
| VacanciesView.FilterVacanciesAppend | client-react/src/components/vacancyComponents/VacanciesView.jsx:47-49 | the original order is kept: the result for a concatenation is the concatenation of the results |
| VacanciesView.UntrimmedTermMatched | client-react/src/components/vacancyComponents/VacanciesView.jsx:42-48 | the term is trimmed only for the blank test: " dev" does not match a vacancy named "dev" |
| VacanciesView.ApplyTarget | client-react/src/components/vacancyComponents/VacanciesView.jsx:79 | id_vac when non-empty, else id |
| VacanciesView.ApplyMessage | client-react/src/components/vacancyComponents/VacanciesView.jsx:80-90 | the server's message or the default on success; 409, 403 and anything else get their own messages |
| VacanciesView.ApplyErrorMessagesDistinct | client-react/src/components/vacancyComponents/VacanciesView.jsx:84-90 | the already-applied message appears iff the status is 409, and the freelancers-only one iff it is 403 |
| VacanciesView.VacanciesBrowser.Load | client-react/src/components/vacancyComponents/VacanciesView.jsx:27-39 | the fetched list, or the empty list on failure, with the filtered list kept equal to FilterVacancies |
| VacanciesView.VacanciesBrowser.Search | client-react/src/components/vacancyComponents/VacanciesView.jsx:23-55 | sets the term and keeps the filtered list equal to FilterVacancies |
| VacanciesView.VacanciesBrowser.ViewDetails | client-react/src/components/vacancyComponents/VacanciesView.jsx:57-60 | selects the vacancy and opens the modal |
| VacanciesView.VacanciesBrowser.HandleApply | client-react/src/components/vacancyComponents/VacanciesView.jsx:67-92 | a request, for ApplyTarget, is sent iff the user is a signed-in freelancer; the alert follows ApplyMessage; only a success closes the modal |
| MyVacancies.ToggledEstado | client-react/src/components/vacancyComponents/MyVacanciesList.jsx:81 | "abierta" becomes "cerrada", and every other state becomes "abierta" |
| MyVacancies.ToggleTwice | client-react/src/components/vacancyComponents/MyVacanciesList.jsx:81 | toggling twice restores the state iff it was "abierta" or "cerrada" |
| MyVacancies.WithEstado | client-react/src/components/vacancyComponents/MyVacanciesList.jsx:90-94 | same length and order; only the entries with that id get the new estado |
| MyVacancies.WithoutId | client-react/src/components/vacancyComponents/MyVacanciesList.jsx:71 | exactly the entries with another id |
| MyVacancies.ToggleOnlyTouchesItsEntries | client-react/src/components/vacancyComponents/MyVacanciesList.jsx:89-94 | the toggle changes nothing outside the vacancy's own entries |
| MyVacancies.ToggledMenu | client-react/src/components/vacancyComponents/MyVacanciesList.jsx:113-115 | a second click on the same id closes the menu; any other click opens that id |
| MyVacancies.MyVacanciesList.ToggleMenu | client-react/src/components/vacancyComponents/MyVacanciesList.jsx:113-115 | the open menu becomes ToggledMenu of the old one |
| MyVacancies.MyVacanciesList.HandleToggleEstado | client-react/src/components/vacancyComponents/MyVacanciesList.jsx:80-104 | the API is called iff confirmed; the list changes, by WithEstado, only after a successful call |
| MyVacancies.MyVacanciesList.HandleDelete | client-react/src/components/vacancyComponents/MyVacanciesList.jsx:55-78 | the API is called iff confirmed; the list loses that id only after a successful call |
| MyVacancies.MyVacanciesList.CloseMenu | client-react/src/components/vacancyComponents/MyVacanciesList.jsx:106-125 | edit, toggle and delete each close the menu and leave the list |
| FreelanceDashboard.Unseen | client-react/src/pages/FreelanceDashboard.jsx:94-101 | exactly the changes whose id is not in the seen list |
| FreelanceDashboard.MarkedSeen | client-react/src/pages/FreelanceDashboard.jsx:155-162 | the old seen list, a missing one counting as empty, followed by every current change id, duplicates kept |
| FreelanceDashboard.ClosingSeesEverything | client-react/src/pages/FreelanceDashboard.jsx:153-171 | once the modal is closed, no current change counts as unseen |
| FreelanceDashboard.MoreSeenFewerUnseen | client-react/src/pages/FreelanceDashboard.jsx:94-101 | a longer seen list never brings a change back |
| FreelanceDashboard.Dashboard.NotificationCount | client-react/src/pages/FreelanceDashboard.jsx:240 | the badge is the length of the unseen list |
| FreelanceDashboard.Dashboard.Initialize | client-react/src/pages/FreelanceDashboard.jsx:52-121 | a user who must leave goes to "/login"; changes are loaded only for a complete profile and a non-empty answer, with the unseen list being Unseen |
| FreelanceDashboard.Dashboard.CloseNotificationModal | client-react/src/pages/FreelanceDashboard.jsx:153-172 | the stored seen list becomes MarkedSeen, the unseen list empties, and the full list is kept |
| FreelanceDashboard.Dashboard.SaveProfile | client-react/src/pages/FreelanceDashboard.jsx:123-147 | fails iff "freelancerId" is missing or empty; a successful save shows the success modal and returns to the vacancies view |
| TokenPurchase.OnQuantityChange | client-react/src/components/paymentComponents/TokenPurchase.jsx:220-228 | "" and "0" empty the field; readable text replaces the number; unreadable text is ignored |
| TokenPurchase.OnQuantityBlur | client-react/src/components/paymentComponents/TokenPurchase.jsx:229-235 | an empty or "0" field becomes 1 |
| TokenPurchase.QuantityOf | client-react/src/components/paymentComponents/TokenPurchase.jsx:159 | an empty field counts as 0, a number as itself |
| TokenPurchase.TotalCop | client-react/src/components/paymentComponents/TokenPurchase.jsx:246 | quantity × 12 000 COP, an empty field counting as 0 |
| TokenPurchase.ValidQuantityTotals | client-react/src/components/paymentComponents/TokenPurchase.jsx:159-163 | an accepted quantity costs 12 000 to 1 200 000 COP, and a blank field is never accepted |
| TokenPurchase.ZeroThenBlurIsOne | client-react/src/components/paymentComponents/TokenPurchase.jsx:220-235 | typing "" or "0" and leaving the field gives the valid quantity 1 |
| TokenPurchase.TypedNumberKept | client-react/src/components/paymentComponents/TokenPurchase.jsx:220-228 | a typed number in 1..100 is kept as the quantity |
| TokenPurchase.IntentIdOf | client-react/src/components/paymentComponents/TokenPurchase.jsx:170 | a prefix of the secret, and the whole secret when "_secret_" is absent |
| TokenPurchase.IntentIdOfSecret | client-react/src/components/paymentComponents/TokenPurchase.jsx:170 | a secret "<id>_secret_<rest>" gives back <id>, unless the marker could start inside <id> |
| TokenPurchase.PurchaseDialog.ChangeQuantity | client-react/src/components/paymentComponents/TokenPurchase.jsx:220-228 | the field becomes OnQuantityChange of the old one; nothing else changes |
| TokenPurchase.PurchaseDialog.BlurQuantity | client-react/src/components/paymentComponents/TokenPurchase.jsx:229-235 | the field becomes OnQuantityBlur of the old one; nothing else changes |
| TokenPurchase.PurchaseDialog.Continue | client-react/src/components/paymentComponents/TokenPurchase.jsx:158-180 | an intent is requested iff the quantity is within 1..100; the step moves to payment, with the secret, the intent id and the amount, only when the server answers |
| TokenPurchase.PurchaseDialog.Cancel | client-react/src/components/paymentComponents/TokenPurchase.jsx:297 | returns to the select step and keeps the rest |
| TokenPurchase.CheckoutSubmit | client-react/src/components/paymentComponents/TokenPurchase.jsx:31-68 | nothing happens until Stripe is loaded; the backend confirmation is requested iff Stripe reports "succeeded", for that intent; a card error shows its message |
| EditFreelancerProfile.AvatarSourceOf | client-react/src/components/profileComponents/EditFreelancerProfile.jsx:86-101 | a stored avatar is an upload iff it starts "uploads/", a default style iff it starts "default_" (the style being the rest), else legacy or none |
| EditFreelancerProfile.WithDefaultAvatar | client-react/src/components/profileComponents/EditFreelancerProfile.jsx:53-71 | a known style sets avatar_default to "default_<style>", shows it and drops the chosen file; an unknown style changes nothing |
| EditFreelancerProfile.Loaded | client-react/src/components/profileComponents/EditFreelancerProfile.jsx:74-104 | copies the fields, missing ones as ""; an upload is previewed from "/api/<path>" and kept as avatar_default; "default_<s>" selects s |
| EditFreelancerProfile.WithAvatarUpload | client-react/src/components/profileComponents/EditFreelancerProfile.jsx:111-134 | an alert iff a file was chosen that is not an image of at most 2 MiB; an accepted file becomes the current file and clears avatar_default; a rejection changes nothing |
| EditFreelancerProfile.WithCvUpload | client-react/src/components/profileComponents/EditFreelancerProfile.jsx:136-156 | a chosen file that is not a PDF of at most 5 MiB raises an alert and clears the input; an accepted one becomes the current CV |
| EditFreelancerProfile.Submitted | client-react/src/components/profileComponents/EditFreelancerProfile.jsx:163-182 | profesion, experiencia and id_ciud are always sent; avatar is sent iff a file was chosen, avatar_default iff not and it is non-empty, hoja_vida iff a CV was chosen |
| EditFreelancerProfile.NeverBothAvatars | client-react/src/components/profileComponents/EditFreelancerProfile.jsx:171-175 | the avatar file and avatar_default are never sent together |
| EditFreelancerProfile.LastChoiceWins | client-react/src/components/profileComponents/EditFreelancerProfile.jsx:53-134 | the later of a style choice and an accepted upload decides what is sent |
| EditFreelancerProfile.ProfileEditor.GenerateDefaultAvatar | client-react/src/components/profileComponents/EditFreelancerProfile.jsx:53-71 | the editor's state becomes WithDefaultAvatar of the old one |
| EditFreelancerProfile.ProfileEditor.Load | client-react/src/components/profileComponents/EditFreelancerProfile.jsx:74-104 | the editor's state becomes Loaded of the old one |
| EditFreelancerProfile.ProfileEditor.InputChange | client-react/src/components/profileComponents/EditFreelancerProfile.jsx:158-161 | the named text field takes the value, and nothing else changes |
| EditFreelancerProfile.ProfileEditor.ChooseStyle | client-react/src/components/profileComponents/EditFreelancerProfile.jsx:106-109 | selects the style, then applies WithDefaultAvatar |
| EditFreelancerProfile.ProfileEditor.UploadAvatar | client-react/src/components/profileComponents/EditFreelancerProfile.jsx:111-134 | the state and the alert are those of WithAvatarUpload |
| EditFreelancerProfile.ProfileEditor.UploadCv | client-react/src/components/profileComponents/EditFreelancerProfile.jsx:136-156 | the state, the alert and the clearing of the input are those of WithCvUpload |
| EditFreelancerProfile.ProfileEditor.Submit | client-react/src/components/profileComponents/EditFreelancerProfile.jsx:163-182 | appending the fields one at a time builds the form of Submitted |
| EditFreelancerProfile.PlainSaveKeepsProfile | client-react/src/components/profileComponents/EditFreelancerProfile.jsx:74-182 | opening the editor on a stored profile and saving it unchanged leaves the server's row as it was, except that a missing or unrecognised avatar becomes "default_avataaars" |
| RegisterForm.MatchAfterEdit | client-react/src/components/authComponents/RegisterForm.jsx:35-51 | editing one field clears the match flag iff the other field is non-empty and differs |
| RegisterForm.EditsKeepTracked | client-react/src/components/authComponents/RegisterForm.jsx:35-51 | after editing either field, the flag agrees with the fields whenever both are filled in |
| RegisterForm.MismatchShownIffDiffer | client-react/src/components/authComponents/RegisterForm.jsx:182-186 | with the flag in step, the mismatch message shows iff both fields are filled in and differ |
| RegisterForm.SubmitBlock | client-react/src/components/authComponents/RegisterForm.jsx:57-66 | the submission is blocked first by unaccepted terms, then by different passwords, and otherwise goes through |
| RegisterForm.RegisterAlert | client-react/src/components/authComponents/RegisterForm.jsx:79-85 | the alert is "Error al registrar usuario: " followed by the error message, or by "Intenta nuevamente" when the message is empty |
| RegisterForm.MismatchShownBlocksSubmit | client-react/src/components/authComponents/RegisterForm.jsx:57-66 | a visible mismatch message always blocks; an empty confirmation shows none but blocks too |
| RegisterForm.Form.constructor | client-react/src/components/authComponents/RegisterForm.jsx:13-32 | empty fields, terms unaccepted, passwords matching, role "freelancer" |
| RegisterForm.Form.HandlePasswordChange | client-react/src/components/authComponents/RegisterForm.jsx:35-42 | sets the password and the flag by MatchAfterEdit, keeping the flag in step |
| RegisterForm.Form.HandleConfirmPasswordChange | client-react/src/components/authComponents/RegisterForm.jsx:44-51 | sets the confirmation and the flag by MatchAfterEdit, keeping the flag in step |
| RegisterForm.Form.ChooseRole | client-react/src/components/authComponents/RegisterForm.jsx:28-32 | the role is "freelancer" or "empresa" in lower case |
| RegisterForm.Form.HandleSubmit | client-react/src/components/authComponents/RegisterForm.jsx:53-87 | a request, with the form's values, is sent iff SubmitBlock allows it; a success shows the modal with the name; a failure shows RegisterAlert of the reason |
| RegisterForm.Form.HandleSuccessModalClose | client-react/src/components/authComponents/RegisterForm.jsx:89-99 | resets nombre, email, password, terms and role, but not the confirmation, and goes to "/login" |
| RegisterForm.StaleConfirmationBlocks | client-react/src/components/authComponents/RegisterForm.jsx:89-98 | after the reset, the kept confirmation shows no message but blocks a new, different password |
| ResetPasswordPage.Utf16Length | client-react/src/pages/ResetPassword.jsx:32 | JavaScript's `length`, between one and two units per character |
| ResetPasswordPage.Validate | client-react/src/pages/ResetPassword.jsx:31-45 | the request goes out iff the length is at least 6, the passwords match and a token is present; otherwise the first failing check's message |
| ResetPasswordPage.ServerLengthSuffices | client-react/src/pages/ResetPassword.jsx:32 | every password long enough for the server is long enough for the page |
| ResetPasswordPage.PageAcceptsWhatServerRefuses | client-react/src/pages/ResetPassword.jsx:32 | three characters outside the Basic Multilingual Plane pass the page's check but not the server's |
| ResetPasswordPage.Page.CaptureToken | client-react/src/pages/ResetPassword.jsx:16-24 | a missing or empty parameter shows the error and leaves no token; otherwise the token is kept |
| ResetPasswordPage.Page.SetPassword | client-react/src/pages/ResetPassword.jsx:115 | sets the password and nothing else |
| ResetPasswordPage.Page.SetConfirmPassword | client-react/src/pages/ResetPassword.jsx:127 | sets the confirmation and nothing else |
| ResetPasswordPage.Page.HandleSubmit | client-react/src/pages/ResetPassword.jsx:26-70 | clears the old messages; sends the token and password iff Validate passes; success shows the server's message, clears both fields and goes to "/login"; failure shows the server's error or the fallback; loading ends false |
| ResetPasswordPage.NoTokenNoRequest | client-react/src/pages/ResetPassword.jsx:42-45 | without a token every submission stops before the request |

## Left out

- E-mail: composing and sending mail is I/O. Only whether the send succeeded is an input, and it changes nothing.
- Stripe: creating and retrieving intents, verifying webhook signatures and the card widgets are foreign calls. The intent, its status and its metadata are inputs. The webhook's bare `except` is left out.
- Pricing: the server's amount in COP cannot be computed, because `Config` lacks the price constants, so it is an input. The client's USD display and the usage percentage are floating point and are left out.
- File system: saving and removing files, `secure_filename` and the random hex digits are inputs. The model returns the paths to remove instead of removing them.
- JWT, password hashing and the ORM projections: the hash is an input string.
- Concurrency: each request is atomic, and interleaved read-modify-write on balances is not modelled.
- Browser plumbing: timers, event listeners, `FileReader`, generated avatar images, `alert`/`confirm` and router navigation. A navigation is the route recorded in a field. A delayed redirect is recorded as soon as it is scheduled.
- JS `Date` normalisation in `getTimeAgo`: the day difference is the input.
- `Intl` currency formatting: `SalaryToFormat` returns only the amount that would be formatted.
- The seen-notification list is kept as the parsed list. Its JSON text in `localStorage` is not modelled.
- TokenPurchase.QuantityOf: JavaScript number precision and exponent rendering for very large typed quantities are not modelled.
- The rating average is computed in tenths with exact rounding. Float representation ties are not modelled.
- EditFreelancerProfile.ProfileEditor.Load: the effect runs only when profile data is present. The absent case does nothing and is not modelled.
- The profile route's outer `try`/rollback on unexpected exceptions is modelled only for account deletion, where the code relies on it.
- AccountDeletion.DeleteAccount: whether the commit succeeds is the input `commitOk`. The model does not derive a failure from the tables. Under MySQL (server-flask/utils/config.py:18-19) the foreign keys of TOKEN_BALANCE and TRANSACCION (server-flask/models/modelo_token.py:11, 28) and of CALIFICACION (server-flask/models/modelo_calificacion.py:10-14) make the commit fail, and the request roll back, for a company that has a balance row, transactions or ratings, and for a freelancer whose applications carry ratings.
- VacanciesView.FilterVacancies: lower-casing (`Text.Lower`, also used by the extension whitelists and the state labels) covers the capitals of Basic Latin and Latin-1. The other scripts' case mappings and the multi-character ones, such as U+0130 becoming two code points, are not modelled.

## Findings

The routes are modelled as written: `Ratings.Rate` uses the written score check and `AccountDeletion.ServeDeleteAccount` the written logo guard. Beside each, the corrected definition states the evident intent and carries its proof.

| source | as written | input that shows it | evidently intended | confidence | as-written member | corrected member |
|---|---|---|---|---|---|---|
| server-flask/routes/routes_rating/calificacion.py:40 | `isinstance(puntuacion, int)` also accepts booleans, because `bool` is a subclass of `int` | `{"id_post": "...", "puntuacion": true}` stores a rating of 1 | only the JSON integers 1 to 5 are scores | high, not executed | Ratings.ScoreAsWrittenAcceptsTrue | Ratings.ScoreAgreesOnIntegers |
| server-flask/routes/routes_auth/eliminar_cuenta.py:66-74 | a logo is removed only if the stored value starts with "uploads/", but the company profile route stores a bare "logo_<id>_<hex>_<name>" | any company with a logo deletes its account, and the file is never removed | remove the logo file the profile route saved, joined to its folder | high, not executed | AccountDeletion.StoredLogoNeverRemovedAsWritten | AccountDeletion.StoredLogoRemoved |
