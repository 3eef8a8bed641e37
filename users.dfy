/**
 The credential store: user records keyed by email, and the invariant that
 every record written by the user controller satisfies.
 */
module Users {
  import opened Wrappers

  datatype Role = Patient | Doctor | Admin

  /** Reference to an image kept by the external image host: its id and its secure URL. */
  datatype Avatar = Avatar(publicId: string, url: string)

  /**
   One stored user. `password` is the credential as handed to the database
   layer; hashing it happens there and is not part of this model.
   */
  datatype User = User(
    firstName: string,
    lastName: string,
    email: string,
    phone: string,
    adhar: Option<string>,
    dob: Option<string>,
    gender: string,
    password: string,
    role: Role,
    doctorDepartment: Option<string>,
    docAvatar: Option<Avatar>)

  /** A user as a default read returns it: every field except the credential, which is never selected by default. */
  datatype Profile = Profile(
    firstName: string,
    lastName: string,
    email: string,
    phone: string,
    adhar: Option<string>,
    dob: Option<string>,
    gender: string,
    role: Role,
    doctorDepartment: Option<string>,
    docAvatar: Option<Avatar>)

  function ProfileOf(u: User): (p: Profile)
    ensures p.firstName == u.firstName && p.lastName == u.lastName && p.email == u.email
    ensures p.phone == u.phone && p.adhar == u.adhar && p.dob == u.dob && p.gender == u.gender
    ensures p.role == u.role && p.doctorDepartment == u.doctorDepartment && p.docAvatar == u.docAvatar
  {
    Profile(u.firstName, u.lastName, u.email, u.phone, u.adhar, u.dob, u.gender,
            u.role, u.doctorDepartment, u.docAvatar)
  }

  /** The user collection, looked up by email. */
  type Store = map<string, User>

  /** An optional field that holds a value JavaScript treats as truthy. */
  predicate Filled(o: Option<string>) {
    o.Some? && o.value != ""
  }

  /**
   What every record the handlers create satisfies: the required fields are
   non-empty, an optional field is either absent or non-empty, admins and
   doctors carry adhar and dob, and exactly the doctors carry a department
   and an avatar.
   */
  predicate WellFormed(u: User) {
    && u.firstName != "" && u.lastName != "" && u.email != ""
    && u.phone != "" && u.gender != "" && u.password != ""
    && (u.adhar.Some? ==> u.adhar.value != "")
    && (u.dob.Some? ==> u.dob.value != "")
    && (u.role != Patient ==> Filled(u.adhar) && Filled(u.dob))
    && (u.role == Doctor <==> Filled(u.doctorDepartment))
    && (u.role == Doctor <==> u.docAvatar.Some?)
    && (u.role != Doctor ==> u.doctorDepartment.None?)
  }

  /** The store invariant: each record sits under its own email and is well formed. */
  predicate Consistent(s: Store) {
    forall e :: e in s ==> s[e].email == e && WellFormed(s[e])
  }

  /** No two distinct records of a consistent store share an email. */
  lemma EmailsUnique(s: Store)
    requires Consistent(s)
    ensures forall u, v :: u in s.Values && v in s.Values && u.email == v.email ==> u == v
  {
  }

  /** Adding a well-formed record under a fresh email keeps the store consistent and grows it by one. */
  lemma InsertFresh(s: Store, u: User)
    requires Consistent(s) && WellFormed(u) && u.email !in s
    ensures Consistent(s[u.email := u])
    ensures |s[u.email := u]| == |s| + 1
    ensures forall e :: e in s ==> e in s[u.email := u] && s[u.email := u][e] == s[e]
  {
  }
}
