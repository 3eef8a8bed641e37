/**
 Request inputs of the user controller: the parsed JSON body, the uploaded
 files, and the answer of the image host for an upload.
 */
module Requests {
  import opened Wrappers

  /** A request body: field name to submitted text. A field not sent is a key not in the map. */
  type Body = map<string, string>

  /** The text a handler reads from a field; a field not sent reads as "", which is falsy just like it. */
  function Value(body: Body, key: string): (v: string)
    ensures key in body ==> v == body[key]
    ensures key !in body ==> v == ""
  {
    if key in body then body[key] else ""
  }

  /** JavaScript truthiness of a body field: it is present only when sent and non-empty. */
  predicate Given(body: Body, key: string) {
    Value(body, key) != ""
  }

  /** Every field of `keys` is present. */
  predicate AllGiven(body: Body, keys: seq<string>) {
    forall k :: k in keys ==> Given(body, k)
  }

  /** An optional field as the record stores it: kept only when truthy. */
  function Optional(body: Body, key: string): (o: Option<string>)
    ensures o.Some? <==> Given(body, key)
    ensures o.Some? ==> o.value == body[key]
  {
    if Given(body, key) then Some(Value(body, key)) else None
  }

  /** Required fields of a patient's self-registration (adhar and dob are optional). */
  const PATIENT_FIELDS: seq<string> := ["firstName", "lastName", "email", "phone", "gender", "password"]

  /** Required fields of a new admin. */
  const ADMIN_FIELDS: seq<string> := ["firstName", "lastName", "email", "phone", "adhar", "dob", "gender", "password"]

  /** Required fields of a new doctor. */
  const DOCTOR_FIELDS: seq<string> := ADMIN_FIELDS + ["doctorDepartment"]

  /** Required fields of a login. */
  const LOGIN_FIELDS: seq<string> := ["email", "password", "confirmPassword"]

  /** The patient form check, field by field. */
  lemma PatientFormFields(body: Body)
    ensures AllGiven(body, PATIENT_FIELDS) <==>
              && Given(body, "firstName") && Given(body, "lastName") && Given(body, "email")
              && Given(body, "phone") && Given(body, "gender") && Given(body, "password")
  {
  }

  /** The admin form check, field by field. */
  lemma AdminFormFields(body: Body)
    ensures AllGiven(body, ADMIN_FIELDS) <==>
              && Given(body, "firstName") && Given(body, "lastName") && Given(body, "email")
              && Given(body, "phone") && Given(body, "adhar") && Given(body, "dob")
              && Given(body, "gender") && Given(body, "password")
  {
  }

  /** The doctor form check is the admin one plus the department. */
  lemma DoctorFormFields(body: Body)
    ensures AllGiven(body, DOCTOR_FIELDS) <==> AllGiven(body, ADMIN_FIELDS) && Given(body, "doctorDepartment")
  {
  }

  /** An uploaded file as the upload middleware describes it. */
  datatype UploadedFile = UploadedFile(mimetype: string, tempFilePath: string)

  /** The uploaded files of a request by form field name; `None` when the request carried none. */
  type Files = Option<map<string, UploadedFile>>

  /** The image formats a doctor's avatar may have. */
  const ALLOWED_FORMATS: seq<string> := ["image/png", "image/jpeg", "image/webp"]

  /** How an upload to the image host ends. */
  datatype UploadResult =
    | Uploaded(publicId: string, secureUrl: string)  // an answer without an error: the image's id and secure URL
    | ErrorAnswer                                   // an answer that carries an error
    | NoAnswer                                      // an empty (undefined) answer
    | Rejected(reason: string)                      // the upload failed with an error of this message
}
