/** What a handler sends back, and the messages it uses. */
module Responses {
  import opened Users

  /**
   A handler's result. `Failure(status, message)` is an error handed to the
   error middleware: for an error the handler raises, `status` is the status
   it gives the error; for an error thrown at run time, which has no status,
   it is 500, the middleware's default. `TokenIssued` hands the user to the
   token issuer, which answers with status 200; the others are 200 JSON bodies.
   */
  datatype Response =
    | Failure(status: nat, message: string)
    | TokenIssued(user: User, message: string)
    | Created(message: string, record: User)
    | DoctorList(doctors: map<string, Profile>)
    | UserDetails(user: User)
    | LoggedOut(message: string)
  {
    function Status(): (code: nat)
      ensures !Failure? ==> code == 200
    {
      if Failure? then status else 200
    }
  }

  const FILL_FULL_FORM := "Please Fill Full Form!"
  const USER_ALREADY_REGISTERED := "User already Registered!"
  const USER_REGISTERED := "User Registered Successfully"
  const PASSWORD_MISMATCH := "Password & Confirm Password Do Not Match!"
  const INVALID_CREDENTIALS := "Invalid Email Or Password!"
  const USER_LOGGED_IN := "User Logged In Successfully"
  const ADMIN_EXISTS := "Admin With This Email Already Exists!"
  const ADMIN_REGISTERED := "New Admin Registered"
  const AVATAR_REQUIRED := "Doctor Avatar Required!"
  const FORMAT_NOT_SUPPORTED := "File Format Not Supported!"
  const DOCTOR_EXISTS := "Doctor With This Email Already Exists!"
  const UPLOAD_FAILED := "Failed To Upload Doctor Avatar To Cloudinary"
  const DOCTOR_REGISTERED := "New Doctor Registered"
  const ADMIN_LOGGED_OUT := "Admin Logged Out Successfully."
  const PATIENT_LOGGED_OUT := "Patient Logged Out Successfully."
  /** The runtime's TypeError when files were sent but none under `docAvatar`. */
  const NO_AVATAR_FIELD := "Cannot read properties of undefined (reading 'mimetype')"
  /** The runtime's TypeError when the upload's answer is empty and its `error` is read. */
  const NO_UPLOAD_ANSWER := "Cannot read properties of undefined (reading 'error')"
  const INTERNAL_SERVER_ERROR := "Internal Server Error"

  /** The message the error middleware sends for an error with message `m`. */
  function MiddlewareMessage(m: string): (r: string)
    ensures r != ""
    ensures m != "" ==> r == m
  {
    if m == "" then INTERNAL_SERVER_ERROR else m
  }
}
