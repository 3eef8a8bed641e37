/**
 The user controller over its mutable state: the user collection and the
 cookie jar of the response. Each method runs the handler's guards in the
 source's order and returns at the first that rejects.
 */
module Controller {
  import opened Wrappers
  import opened Users
  import opened Requests
  import opened Responses
  import opened Cookies
  import Handlers

  class UserController {
    var users: Store
    var cookies: Jar

    ghost predicate Valid()
      reads this
    {
      Consistent(users)
    }

    constructor (initial: Store)
      requires Consistent(initial)
      ensures Valid()
      ensures users == initial && cookies == map[]
    {
      users := initial;
      cookies := map[];
    }

    method PatientRegister(body: Body) returns (resp: Response)
      requires Valid()
      modifies this`users
      ensures Valid()
      ensures Handlers.Step(resp, users) == Handlers.PatientRegister(old(users), body)
      ensures resp.Failure? ==> users == old(users)
      ensures resp.TokenIssued? ==> users == old(users)[resp.user.email := resp.user] && resp.user.role == Patient
    {
      PatientFormFields(body);
      if !Given(body, "firstName") || !Given(body, "lastName") || !Given(body, "email")
         || !Given(body, "phone") || !Given(body, "gender") || !Given(body, "password")
      {
        return Failure(400, FILL_FULL_FORM);
      }
      var email := Value(body, "email");
      if email in users {
        return Failure(400, USER_ALREADY_REGISTERED);
      }
      var payload := User(Value(body, "firstName"), Value(body, "lastName"), email, Value(body, "phone"),
                          None, None, Value(body, "gender"), Value(body, "password"), Patient, None, None);
      if Given(body, "adhar") {
        payload := payload.(adhar := Some(Value(body, "adhar")));
      }
      if Given(body, "dob") {
        payload := payload.(dob := Some(Value(body, "dob")));
      }
      users := users[email := payload];
      resp := TokenIssued(payload, USER_REGISTERED);
    }

    method AddNewAdmin(body: Body) returns (resp: Response)
      requires Valid()
      modifies this`users
      ensures Valid()
      ensures Handlers.Step(resp, users) == Handlers.AddNewAdmin(old(users), body)
      ensures resp.Failure? ==> users == old(users)
      ensures resp.Created? ==> users == old(users)[resp.record.email := resp.record] && resp.record.role == Admin
    {
      AdminFormFields(body);
      if !Given(body, "firstName") || !Given(body, "lastName") || !Given(body, "email")
         || !Given(body, "phone") || !Given(body, "adhar") || !Given(body, "dob")
         || !Given(body, "gender") || !Given(body, "password")
      {
        return Failure(400, FILL_FULL_FORM);
      }
      var email := Value(body, "email");
      if email in users {
        return Failure(400, ADMIN_EXISTS);
      }
      var admin := User(Value(body, "firstName"), Value(body, "lastName"), email, Value(body, "phone"),
                        Some(Value(body, "adhar")), Some(Value(body, "dob")), Value(body, "gender"),
                        Value(body, "password"), Admin, None, None);
      users := users[email := admin];
      resp := Created(ADMIN_REGISTERED, admin);
    }

    method AddNewDoctor(body: Body, files: Files, upload: UploadResult) returns (resp: Response)
      requires Valid()
      modifies this`users
      ensures Valid()
      ensures Handlers.Step(resp, users) == Handlers.AddNewDoctor(old(users), body, files, upload)
      ensures resp.Failure? ==> users == old(users)
      ensures resp.Created? ==> users == old(users)[resp.record.email := resp.record] && resp.record.role == Doctor
    {
      if files.None? || |files.value| == 0 {
        return Failure(400, AVATAR_REQUIRED);
      }
      if "docAvatar" !in files.value {
        // reading `mimetype` of the missing entry throws; the error middleware answers 500
        return Failure(500, NO_AVATAR_FIELD);
      }
      var docAvatar := files.value["docAvatar"];
      AdminFormFields(body);
      DoctorFormFields(body);
      if docAvatar.mimetype !in ALLOWED_FORMATS {
        return Failure(400, FORMAT_NOT_SUPPORTED);
      }
      if !Given(body, "firstName") || !Given(body, "lastName") || !Given(body, "email")
         || !Given(body, "phone") || !Given(body, "adhar") || !Given(body, "dob")
         || !Given(body, "gender") || !Given(body, "password") || !Given(body, "doctorDepartment")
      {
        return Failure(400, FILL_FULL_FORM);
      }
      var email := Value(body, "email");
      if email in users {
        return Failure(400, DOCTOR_EXISTS);
      }
      if upload.Rejected? {
        // the awaited upload throws; its error reaches the error middleware as it is
        return Failure(500, MiddlewareMessage(upload.reason));
      }
      if upload.NoAnswer? {
        // reading `error` of the empty answer throws
        return Failure(500, NO_UPLOAD_ANSWER);
      }
      if upload.ErrorAnswer? {
        return Failure(500, UPLOAD_FAILED);
      }
      var doctor := User(Value(body, "firstName"), Value(body, "lastName"), email, Value(body, "phone"),
                         Some(Value(body, "adhar")), Some(Value(body, "dob")), Value(body, "gender"),
                         Value(body, "password"), Doctor, Some(Value(body, "doctorDepartment")),
                         Some(Avatar(upload.publicId, upload.secureUrl)));
      users := users[email := doctor];
      resp := Created(DOCTOR_REGISTERED, doctor);
    }

    method LogoutAdmin() returns (resp: Response)
      requires Valid()
      modifies this`cookies
      ensures Valid()
      ensures (resp, cookies) == Handlers.LogoutAdmin(old(cookies))
      ensures cookies == ClearCookie(old(cookies), ADMIN_COOKIE, SESSION_OPTIONS)
    {
      cookies := ClearCookie(cookies, ADMIN_COOKIE, SESSION_OPTIONS);
      resp := LoggedOut(ADMIN_LOGGED_OUT);
    }

    method LogoutPatient() returns (resp: Response)
      requires Valid()
      modifies this`cookies
      ensures Valid()
      ensures (resp, cookies) == Handlers.LogoutPatient(old(cookies))
      ensures cookies == ClearCookie(old(cookies), PATIENT_COOKIE, SESSION_OPTIONS)
    {
      cookies := ClearCookie(cookies, PATIENT_COOKIE, SESSION_OPTIONS);
      resp := LoggedOut(PATIENT_LOGGED_OUT);
    }
  }
}
