# User controller of a hospital-management backend, modelled in Dafny

This project models the active request handlers of `controller/userController.js`:
patient self-registration, login, adding an admin, adding a doctor with an
avatar upload, listing doctors, returning the authenticated user's details,
and the admin and patient logouts. The user collection is a map from email
to user record (`Users.Store`). The response's cookies are a map from cookie
name to cookie directive (`Cookies.Jar`).

Each handler runs a fixed chain of guards and stops at the first one that
rejects. The chain is: field presence (JavaScript truthiness: a field counts
only when sent and non-empty), password confirmation, the duplicate-email
lookup, the avatar upload, and finally one record creation or one token
issue.

- `Handlers` states every handler as a function from the store (or the
  cookie jar) and the request to the response and the new store.
- `Controller.UserController` is a class holding the store and the jar. Its
  methods follow the source step by step: early returns, and for patients a
  payload built first and then extended with adhar and dob. Each method is
  proved equal to its `Handlers` function.
- `Traces` runs any sequence of requests. It proves that the store stays
  consistent, so emails stay unique. It also proves that stored records
  never change, that the store grows by exactly one record per successful
  creation, and that no cookie other than `adminToken` and `patientToken` is
  touched.

Abstract collaborators:
- The password verifier (`comparePassword`) is a parameter `matches(plaintext, stored)`.
- Token issuing (`generateToken`) is the response `TokenIssued(user, message)`.
- The image-host upload is an input `UploadResult`, with four cases:
  - `Uploaded(publicId, secureUrl)`: an answer without an error.
  - `ErrorAnswer`: an answer that carries an error. Line 173 rejects it with 500 "Failed To Upload Doctor Avatar To Cloudinary".
  - `NoAnswer`: an empty answer. Line 172 then reads its `error` and throws a TypeError, which answers 500 (`Responses.NO_UPLOAD_ANSWER`).
  - `Rejected(reason)`: the awaited upload at line 170 throws. Its error reaches the error middleware (app.js:57-63) with its own message.
- The authenticated user of the details route is an input, the user resolved by the access guard.

Where the design description and the code differ, the model follows the code:
- The design says an admin's role is a client input. `addNewAdmin` always writes role "Admin" (line 87).
- The design speaks of a conflict error for a duplicate email. The code answers 400, with a different message for each handler (lines 18, 75, 167).
- `login` issues a token for a user of any role. It has no role check.

Two details of the code are modelled as written:
- The `!docAvatar` test at line 161 can never fire, because line 155 has already read `docAvatar.mimetype`.
- Files sent without a `docAvatar` entry make line 155 throw a TypeError. The error middleware (app.js:57-63) answers it with status 500 (`Responses.NO_AVATAR_FIELD`).
- An empty upload answer makes line 172 throw a TypeError in the same way.

`Failure(status, message)` is the error handed to the error middleware. The middleware answers `res.status(err.status || 500)` (app.js:59).
- For an error a handler raises with ErrorHandler, `status` is ErrorHandler's second argument.
- For an error thrown at run time (the TypeErrors above, a rejected upload), which carries no status, `status` is 500, the default at app.js:59.

## Model

| member | source | states |
|---|---|---|
| Requests.Optional | controller/userController.js:32-33 | an optional field is kept exactly when it is truthy, with the sent text |
| Requests.PatientFormFields | controller/userController.js:12 | the patient form check is the six required fields, without adhar and dob |
| Requests.AdminFormFields | controller/userController.js:69 | the admin form check is the eight fields including adhar and dob |
| Requests.DoctorFormFields | controller/userController.js:161 | the doctor form check is the admin one plus doctorDepartment |
| Users.EmailsUnique | controller/userController.js:16-19 | in a consistent store no two distinct records share an email |
| Users.InsertFresh | controller/userController.js:35 | inserting a well-formed record under a new email keeps the store consistent, adds one record and keeps all others |
| Cookies.ClearCookie | controller/userController.js:118-123 | clearing a cookie leaves it empty and expired with the given attributes, and every other cookie as it was |
| Handlers.PatientRecord | controller/userController.js:22-33 | the patient payload is well formed, holds the submitted names, email, phone, gender and password, has role Patient whatever the body says, carries adhar and dob only when sent, and has no department or avatar |
| Handlers.StaffRecord | controller/userController.js:78-88 | an admin or doctor record is well formed and holds the submitted names, email, phone, gender, password, adhar and dob, with the given role, department and avatar |
| Handlers.PatientRegister | controller/userController.js:8-38 | 400 "Please Fill Full Form!" exactly when a required field is missing; then 400 "User already Registered!" exactly when the email is stored; success exactly when neither holds; a rejection leaves the store unchanged; success adds exactly the patient record built from the body under its email and issues a token for it; consistency is preserved |
| Handlers.Login | controller/userController.js:41-63 | form check first, confirmation check second, each exactly when its condition holds; "Invalid Email Or Password!" exactly for an unknown email or a non-matching password; a token exactly when the user exists and the password matches; every other outcome is a 400 |
| Handlers.AddNewAdmin | controller/userController.js:66-95 | form check including adhar and dob, then duplicate email, each exactly when its condition holds; success exactly when neither holds; a rejection leaves the store unchanged; success adds exactly the Admin record built from the body and returns it without a token |
| Handlers.GetAllDoctors | controller/userController.js:98-104 | the list holds exactly the stored records whose role is Doctor, each as a default read returns it: every field but the credential |
| Handlers.GetUserDetails | controller/userController.js:107-113 | the answer is status 200 with the user the access guard attached |
| Handlers.AddNewDoctor | controller/userController.js:148-198 | no files, missing docAvatar entry, unsupported format, missing field, duplicate email, then the three upload failures (an answer with an error, an empty answer, a thrown upload), in this order, each answered as the source does when its condition and none before it holds; success exactly when every check passes and the upload answers; a rejection leaves the store unchanged; success adds exactly the Doctor record built from the body with the department and the uploaded id and URL |
| Handlers.LogoutAdmin | controller/userController.js:116-129 | clears "adminToken" with httpOnly, secure, sameSite none and path "/", and leaves every other cookie as it was |
| Handlers.LogoutPatient | controller/userController.js:132-145 | clears "patientToken" with the same attributes, and leaves every other cookie as it was |
| Handlers.LoginHidesWhichCheckFailed | controller/userController.js:52-60 | an unknown email and a wrong password get the identical rejection |
| Handlers.PatientOptionalFields | controller/userController.js:11-14 | removing adhar and dob from a body never changes whether registration is rejected as incomplete |
| Handlers.DoctorsAfterAddNewDoctor | controller/userController.js:176-191 | after a successful addNewDoctor the doctor list is the old one plus the new record's profile |
| Handlers.DoctorsUnchangedByOtherCreations | controller/userController.js:22-35 | registering a patient or adding an admin leaves the doctor list unchanged |
| Controller.UserController.PatientRegister | controller/userController.js:8-38 | the step-by-step handler changes only the store, keeps it consistent, and matches Handlers.PatientRegister |
| Controller.UserController.AddNewAdmin | controller/userController.js:66-95 | the step-by-step handler changes only the store, keeps it consistent, and matches Handlers.AddNewAdmin |
| Controller.UserController.AddNewDoctor | controller/userController.js:148-198 | the step-by-step handler changes only the store, keeps it consistent, and matches Handlers.AddNewDoctor |
| Controller.UserController.LogoutAdmin | controller/userController.js:116-129 | changes only the cookie jar, clearing "adminToken" with the session attributes |
| Controller.UserController.LogoutPatient | controller/userController.js:132-145 | changes only the cookie jar, clearing "patientToken" with the session attributes |
| Responses.MiddlewareMessage | app.js:61 | the error middleware sends the error's own message, and "Internal Server Error" only when that is empty |
| Traces.Handle | controller/userController.js:8-198 | one request keeps the store consistent, never changes a stored record, changes nothing when rejected, writes the store only on a successful creation (one new record under the body's email, with its password and the role of that handler), and touches only the session cookies |
| Traces.RunConsistent | controller/userController.js:16-19 | every sequence of requests keeps the store consistent |
| Traces.EmailsStayUnique | controller/userController.js:165-168 | after every sequence of requests no two records share an email |
| Traces.RunKeepsRecords | controller/userController.js:73-76 | a stored record, and so its role, is never replaced or removed |
| Traces.RunCountsCreations | controller/userController.js:35 | the store grows by exactly the number of successful creations |
| Traces.ReadOnlyRun | controller/userController.js:41-63 | login, listing, details and logouts never change the store |
| Traces.RunKeepsOtherCookies | controller/userController.js:116-145 | no cookie other than the two session cookies ever changes |
| Traces.SameEmailTwice | controller/userController.js:16-19 | after a successful creation, a second creation with the same email, of any role, is rejected and changes nothing |
| Traces.CreatedUserCanSignIn | controller/userController.js:52-62 | a user just created by any of the three handlers can log in with the same email and password and gets a token for the stored record, which has that handler's role |

## Left out

- Lines 202-627 of controller/userController.js are commented-out older handlers that never run, including an old role check in login.
- Password hashing and comparison (bcrypt in models/userSchema.js) are not part of this model. The stored `password` is whatever the database layer keeps, and `matches` stands for the comparison.
- Token signing, cookie naming and expiry happen in utils/jwtToken.js, which is not part of this model. A token issue is the response `TokenIssued(user, message)` and does not write the modelled cookie jar. The program's registration and login do set a session cookie (lines 37, 62). So the statements that creations and logins leave the jar unchanged hold of this model only.
- The upload to the image host is a network call. Only its four outcomes are modelled. The `console.error` logging is left out.
- An upload answer that is `null` rather than undefined gives the TypeError text with "null" in place of "undefined". The model keeps only the undefined one.
- A rejected upload is answered with status 500. An error from the image host that carries its own `status` property would be answered with that status instead; this is not modelled.
- catchAsyncErrors and ErrorHandler (middlewares/, not part of this model) are not modelled. Whether ErrorHandler stores its status where app.js:59 reads it (`err.status`) cannot be seen. So for raised errors, `Failure.status` is ErrorHandler's argument, not a claim about the HTTP status line.
- Schema validation and defaults applied by `User.create` (models/userSchema.js) are not part of this model. The model assumes a creation always succeeds.
- Request bodies are modelled as text fields only. JSON numbers, booleans, null and arrays, and their truthiness, are not modelled.
- Several files uploaded under `docAvatar` arrive as an array. That case is not modelled; a single file is assumed.
- The order in which the database returns the doctor list is not modelled. The list is a map from email to profile.
- Concurrency is not modelled: the model is sequential. This excludes the race between two registrations with the same email and any storage-level unique index.
- app.js (routing, CORS, body parsing, upload configuration) and database/dbConnection.js (connection caching) are not modelled.
- The access guard that sets `req.user` for the details route is not part of this model. Its result is an input.
