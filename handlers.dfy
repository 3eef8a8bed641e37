/**
 The request handlers of the user controller as functions of the store:
 each returns the response and the store after the request.
 */
module Handlers {
  import opened Wrappers
  import opened Users
  import opened Requests
  import opened Responses
  import opened Cookies

  datatype Step = Step(response: Response, store: Store)

  /** The record a patient's self-registration writes: role Patient, adhar and dob only when sent. */
  function PatientRecord(body: Body): (u: User)
    requires AllGiven(body, PATIENT_FIELDS)
    ensures WellFormed(u) && u.role == Patient
    ensures u.firstName == Value(body, "firstName") && u.lastName == Value(body, "lastName")
    ensures u.email == Value(body, "email") && u.phone == Value(body, "phone")
    ensures u.gender == Value(body, "gender") && u.password == Value(body, "password")
    ensures u.adhar == Optional(body, "adhar") && u.dob == Optional(body, "dob")
    ensures u.doctorDepartment.None? && u.docAvatar.None?
  {
    assert Given(body, PATIENT_FIELDS[0]) && Given(body, PATIENT_FIELDS[1]) && Given(body, PATIENT_FIELDS[2]);
    assert Given(body, PATIENT_FIELDS[3]) && Given(body, PATIENT_FIELDS[4]) && Given(body, PATIENT_FIELDS[5]);
    User(Value(body, "firstName"), Value(body, "lastName"), Value(body, "email"), Value(body, "phone"),
         Optional(body, "adhar"), Optional(body, "dob"), Value(body, "gender"), Value(body, "password"),
         Patient, None, None)
  }

  /** The record an admin, or with a department and avatar a doctor, is created with. */
  function StaffRecord(body: Body, role: Role, department: Option<string>, avatar: Option<Avatar>): (u: User)
    requires AllGiven(body, ADMIN_FIELDS)
    requires role != Patient
    requires role == Doctor <==> Filled(department)
    requires role == Doctor <==> avatar.Some?
    requires role != Doctor ==> department.None?
    ensures WellFormed(u) && u.role == role
    ensures u.firstName == Value(body, "firstName") && u.lastName == Value(body, "lastName")
    ensures u.email == Value(body, "email") && u.phone == Value(body, "phone")
    ensures u.gender == Value(body, "gender") && u.password == Value(body, "password")
    ensures u.adhar == Some(Value(body, "adhar")) && u.dob == Some(Value(body, "dob"))
    ensures u.doctorDepartment == department && u.docAvatar == avatar
  {
    assert Given(body, ADMIN_FIELDS[0]) && Given(body, ADMIN_FIELDS[1]) && Given(body, ADMIN_FIELDS[2]);
    assert Given(body, ADMIN_FIELDS[3]) && Given(body, ADMIN_FIELDS[4]) && Given(body, ADMIN_FIELDS[5]);
    assert Given(body, ADMIN_FIELDS[6]) && Given(body, ADMIN_FIELDS[7]);
    User(Value(body, "firstName"), Value(body, "lastName"), Value(body, "email"), Value(body, "phone"),
         Some(Value(body, "adhar")), Some(Value(body, "dob")), Value(body, "gender"), Value(body, "password"),
         role, department, avatar)
  }

  /** Some field of `keys` is missing or empty. */
  predicate Incomplete(body: Body, keys: seq<string>) {
    exists k :: k in keys && !Given(body, k)
  }

  /**
   Patient self-registration: the form check, then the duplicate-email
   check, then one record with role Patient and a token for it.
   */
  function PatientRegister(s: Store, body: Body): (r: Step)
    ensures r.response == Failure(400, FILL_FULL_FORM) <==> Incomplete(body, PATIENT_FIELDS)
    ensures r.response == Failure(400, USER_ALREADY_REGISTERED) <==>
              !Incomplete(body, PATIENT_FIELDS) && Value(body, "email") in s
    ensures !r.response.Failure? <==> !Incomplete(body, PATIENT_FIELDS) && Value(body, "email") !in s
    ensures r.response.Failure? ==> r.store == s
    ensures !r.response.Failure? ==>
              && r.response.TokenIssued?
              && r.response.message == USER_REGISTERED
              && var u := r.response.user;
              && u == PatientRecord(body)
              && u.email !in s
              && r.store == s[u.email := u]
    ensures Consistent(s) ==> Consistent(r.store)
  {
    if !AllGiven(body, PATIENT_FIELDS) then
      Step(Failure(400, FILL_FULL_FORM), s)
    else if Value(body, "email") in s then
      Step(Failure(400, USER_ALREADY_REGISTERED), s)
    else
      var u := PatientRecord(body);
      Step(TokenIssued(u, USER_REGISTERED), s[u.email := u])
  }

  /**
   Login: the form check and the confirmation check come before any lookup;
   an unknown email and a wrong password give the same answer. `matches` is
   the password verifier: does the plaintext match the stored credential?
   */
  function Login(s: Store, body: Body, matches: (string, string) -> bool): (r: Response)
    ensures r == Failure(400, FILL_FULL_FORM) <==> Incomplete(body, LOGIN_FIELDS)
    ensures r == Failure(400, PASSWORD_MISMATCH) <==>
              !Incomplete(body, LOGIN_FIELDS) && Value(body, "password") != Value(body, "confirmPassword")
    ensures r == Failure(400, INVALID_CREDENTIALS) <==>
              && !Incomplete(body, LOGIN_FIELDS)
              && Value(body, "password") == Value(body, "confirmPassword")
              && (Value(body, "email") !in s || !matches(Value(body, "password"), s[Value(body, "email")].password))
    ensures r.TokenIssued? <==>
              && !Incomplete(body, LOGIN_FIELDS)
              && Value(body, "password") == Value(body, "confirmPassword")
              && Value(body, "email") in s && matches(Value(body, "password"), s[Value(body, "email")].password)
    ensures r.TokenIssued? ==> r.user == s[Value(body, "email")] && r.message == USER_LOGGED_IN
    ensures r.Failure? || r.TokenIssued?
  {
    if !AllGiven(body, LOGIN_FIELDS) then
      Failure(400, FILL_FULL_FORM)
    else if Value(body, "password") != Value(body, "confirmPassword") then
      Failure(400, PASSWORD_MISMATCH)
    else if Value(body, "email") !in s then
      Failure(400, INVALID_CREDENTIALS)
    else if !matches(Value(body, "password"), s[Value(body, "email")].password) then
      Failure(400, INVALID_CREDENTIALS)
    else
      TokenIssued(s[Value(body, "email")], USER_LOGGED_IN)
  }

  /** Adding an admin: adhar and dob are required too; the new record is returned, no token is issued. */
  function AddNewAdmin(s: Store, body: Body): (r: Step)
    ensures r.response == Failure(400, FILL_FULL_FORM) <==> Incomplete(body, ADMIN_FIELDS)
    ensures r.response == Failure(400, ADMIN_EXISTS) <==>
              !Incomplete(body, ADMIN_FIELDS) && Value(body, "email") in s
    ensures !r.response.Failure? <==> !Incomplete(body, ADMIN_FIELDS) && Value(body, "email") !in s
    ensures r.response.Failure? ==> r.store == s
    ensures !r.response.Failure? ==>
              && r.response.Created? && r.response.message == ADMIN_REGISTERED
              && var u := r.response.record;
              && u == StaffRecord(body, Admin, None, None)
              && u.email !in s
              && r.store == s[u.email := u]
    ensures Consistent(s) ==> Consistent(r.store)
  {
    if !AllGiven(body, ADMIN_FIELDS) then
      Step(Failure(400, FILL_FULL_FORM), s)
    else if Value(body, "email") in s then
      Step(Failure(400, ADMIN_EXISTS), s)
    else
      var u := StaffRecord(body, Admin, None, None);
      Step(Created(ADMIN_REGISTERED, u), s[u.email := u])
  }

  /** The list of doctors: exactly the stored records whose role is Doctor, read without their credential. */
  function GetAllDoctors(s: Store): (r: Response)
    ensures r.DoctorList? && r.Status() == 200
    ensures forall e :: e in r.doctors <==> e in s && s[e].role == Doctor
    ensures forall e :: e in r.doctors ==> r.doctors[e] == ProfileOf(s[e])
  {
    DoctorList(map e | e in s && s[e].role == Doctor :: ProfileOf(s[e]))
  }

  /** The details route answers with the user the access guard attached to the request. */
  function GetUserDetails(authenticated: User): (r: Response)
    ensures r.UserDetails? && r.user == authenticated && r.Status() == 200
  {
    UserDetails(authenticated)
  }

  /** No upload arrived: `req.files` is absent or has no entries. */
  predicate NoFiles(files: Files) {
    files.None? || |files.value| == 0
  }

  /** An upload arrived under `docAvatar` and its format is accepted. */
  predicate AvatarAccepted(files: Files) {
    && !NoFiles(files)
    && "docAvatar" in files.value
    && files.value["docAvatar"].mimetype in ALLOWED_FORMATS
  }

  /** Every check of addNewDoctor before the upload passes. */
  predicate DoctorChecksPass(s: Store, body: Body, files: Files) {
    AvatarAccepted(files) && !Incomplete(body, DOCTOR_FIELDS) && Value(body, "email") !in s
  }

  /**
   Adding a doctor: the avatar checks, the form check (with the department),
   the duplicate-email check and the upload, in this order; only then one
   record with role Doctor, the department and the uploaded avatar.
   */
  function AddNewDoctor(s: Store, body: Body, files: Files, upload: UploadResult): (r: Step)
    ensures r.response == Failure(400, AVATAR_REQUIRED) <==> NoFiles(files)
    ensures !NoFiles(files) && "docAvatar" !in files.value ==> r.response == Failure(500, NO_AVATAR_FIELD)
    ensures r.response == Failure(400, FORMAT_NOT_SUPPORTED) <==>
              && !NoFiles(files) && "docAvatar" in files.value
              && files.value["docAvatar"].mimetype !in ALLOWED_FORMATS
    ensures r.response == Failure(400, FILL_FULL_FORM) <==>
              AvatarAccepted(files) && Incomplete(body, DOCTOR_FIELDS)
    ensures r.response == Failure(400, DOCTOR_EXISTS) <==>
              AvatarAccepted(files) && !Incomplete(body, DOCTOR_FIELDS) && Value(body, "email") in s
    ensures DoctorChecksPass(s, body, files) && upload.Rejected? ==>
              r.response == Failure(500, MiddlewareMessage(upload.reason))
    ensures DoctorChecksPass(s, body, files) && upload.NoAnswer? ==> r.response == Failure(500, NO_UPLOAD_ANSWER)
    ensures DoctorChecksPass(s, body, files) && upload.ErrorAnswer? ==> r.response == Failure(500, UPLOAD_FAILED)
    ensures !r.response.Failure? <==> DoctorChecksPass(s, body, files) && upload.Uploaded?
    ensures r.response.Failure? ==> r.store == s
    ensures !r.response.Failure? ==>
              && upload.Uploaded? && Given(body, "doctorDepartment") && AllGiven(body, ADMIN_FIELDS)
              && r.response.Created? && r.response.message == DOCTOR_REGISTERED
              && var u := r.response.record;
              && u == StaffRecord(body, Doctor, Some(Value(body, "doctorDepartment")),
                                  Some(Avatar(upload.publicId, upload.secureUrl)))
              && u.email !in s
              && r.store == s[u.email := u]
    ensures Consistent(s) ==> Consistent(r.store)
  {
    if NoFiles(files) then
      Step(Failure(400, AVATAR_REQUIRED), s)
    else if "docAvatar" !in files.value then
      Step(Failure(500, NO_AVATAR_FIELD), s)
    else if files.value["docAvatar"].mimetype !in ALLOWED_FORMATS then
      Step(Failure(400, FORMAT_NOT_SUPPORTED), s)
    else if !AllGiven(body, DOCTOR_FIELDS) then
      Step(Failure(400, FILL_FULL_FORM), s)
    else if Value(body, "email") in s then
      Step(Failure(400, DOCTOR_EXISTS), s)
    else if upload.Rejected? then
      Step(Failure(500, MiddlewareMessage(upload.reason)), s)
    else if upload.NoAnswer? then
      Step(Failure(500, NO_UPLOAD_ANSWER), s)
    else if upload.ErrorAnswer? then
      Step(Failure(500, UPLOAD_FAILED), s)
    else
      assert forall k :: k in ADMIN_FIELDS ==> k in DOCTOR_FIELDS;
      assert Given(body, DOCTOR_FIELDS[8]);
      var u := StaffRecord(body, Doctor, Some(Value(body, "doctorDepartment")),
                           Some(Avatar(upload.publicId, upload.secureUrl)));
      Step(Created(DOCTOR_REGISTERED, u), s[u.email := u])
  }

  /** Admin logout: clear the admin session cookie, and only it. */
  function LogoutAdmin(jar: Jar): (r: (Response, Jar))
    ensures r.0 == LoggedOut(ADMIN_LOGGED_OUT)
    ensures ADMIN_COOKIE in r.1 && r.1[ADMIN_COOKIE] == Cookie("", SESSION_OPTIONS, true)
    ensures forall n :: n != ADMIN_COOKIE ==> (n in r.1 <==> n in jar) && (n in jar ==> r.1[n] == jar[n])
  {
    (LoggedOut(ADMIN_LOGGED_OUT), ClearCookie(jar, ADMIN_COOKIE, SESSION_OPTIONS))
  }

  /** Patient logout: clear the patient session cookie, and only it. */
  function LogoutPatient(jar: Jar): (r: (Response, Jar))
    ensures r.0 == LoggedOut(PATIENT_LOGGED_OUT)
    ensures PATIENT_COOKIE in r.1 && r.1[PATIENT_COOKIE] == Cookie("", SESSION_OPTIONS, true)
    ensures forall n :: n != PATIENT_COOKIE ==> (n in r.1 <==> n in jar) && (n in jar ==> r.1[n] == jar[n])
  {
    (LoggedOut(PATIENT_LOGGED_OUT), ClearCookie(jar, PATIENT_COOKIE, SESSION_OPTIONS))
  }

  /**
   Login cannot tell an unknown email from a wrong password: a store without
   the email and a store whose record for it does not match the password give
   the same response.
   */
  lemma LoginHidesWhichCheckFailed(s: Store, body: Body, matches: (string, string) -> bool, u: User)
    requires Value(body, "email") !in s
    requires !matches(Value(body, "password"), u.password)
    ensures Login(s, body, matches) == Login(s[Value(body, "email") := u], body, matches)
    ensures Login(s, body, matches).Failure?
  {
  }

  /** Leaving out adhar and dob never turns a patient registration into a form rejection. */
  lemma PatientOptionalFields(s: Store, body: Body)
    ensures (PatientRegister(s, body - {"adhar", "dob"}).response == Failure(400, FILL_FULL_FORM))
        == (PatientRegister(s, body).response == Failure(400, FILL_FULL_FORM))
  {
  }

  /** A new doctor appears in the doctor list, and nothing else in it changes. */
  lemma DoctorsAfterAddNewDoctor(s: Store, body: Body, files: Files, upload: UploadResult)
    requires AddNewDoctor(s, body, files, upload).response.Created?
    ensures var r := AddNewDoctor(s, body, files, upload);
            GetAllDoctors(r.store).doctors
              == GetAllDoctors(s).doctors[r.response.record.email := ProfileOf(r.response.record)]
  {
  }

  /** Registering a patient or adding an admin leaves the doctor list as it was. */
  lemma DoctorsUnchangedByOtherCreations(s: Store, body: Body)
    ensures GetAllDoctors(PatientRegister(s, body).store) == GetAllDoctors(s)
    ensures GetAllDoctors(AddNewAdmin(s, body).store) == GetAllDoctors(s)
  {
  }
}
