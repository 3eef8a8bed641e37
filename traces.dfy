/**
 Requests handled one after another against one store and one cookie jar,
 and what holds of every such sequence: the store stays consistent (so no
 two records share an email), a stored record is never changed or removed,
 and only a successful creation adds a record. In this model only the two
 logout handlers touch the cookie jar: the session cookie a token issue
 sets is the token issuer's business and is not modelled.
 */
module Traces {
  import opened Users
  import opened Requests
  import opened Responses
  import opened Cookies
  import Handlers

  /** One request to the user controller. `Me` carries the user the access guard resolved. */
  datatype Request =
    | Register(body: Body)
    | SignIn(body: Body)
    | NewAdmin(body: Body)
    | NewDoctor(body: Body, files: Files, upload: UploadResult)
    | Doctors
    | Me(user: User)
    | AdminLogout
    | PatientLogout
  {
    /** The three handlers that can add a record. */
    predicate Creates() {
      Register? || NewAdmin? || NewDoctor?
    }
  }

  /** The role each creating handler writes, whatever the body says. */
  function CreatedRole(req: Request): Role
    requires req.Creates()
  {
    match req
    case Register(_) => Patient
    case NewAdmin(_) => Admin
    case NewDoctor(_, _, _) => Doctor
  }

  datatype State = State(users: Store, cookies: Jar)

  /** The only cookies the modelled handlers write. */
  predicate SessionCookie(name: string) {
    name == ADMIN_COOKIE || name == PATIENT_COOKIE
  }

  /** Handling one request: the response and the state after it. */
  function Handle(st: State, req: Request, matches: (string, string) -> bool): (r: (Response, State))
    ensures Consistent(st.users) ==> Consistent(r.1.users)
    ensures forall e :: e in st.users ==> e in r.1.users && r.1.users[e] == st.users[e]
    ensures r.0.Failure? ==> r.1 == st
    ensures !(req.Creates() && !r.0.Failure?) ==> r.1.users == st.users
    ensures req.Creates() && !r.0.Failure? ==>
              |r.1.users| == |st.users| + 1 && Value(req.body, "email") !in st.users
              && Value(req.body, "email") in r.1.users
              && r.1.users[Value(req.body, "email")].password == Value(req.body, "password")
              && r.1.users[Value(req.body, "email")].role == CreatedRole(req)
    ensures req.Creates() ==> r.1.cookies == st.cookies
    ensures forall n :: !SessionCookie(n) ==> (n in r.1.cookies <==> n in st.cookies)
    ensures forall n :: !SessionCookie(n) && n in st.cookies ==> r.1.cookies[n] == st.cookies[n]
  {
    match req
    case Register(body) =>
      var step := Handlers.PatientRegister(st.users, body);
      (step.response, st.(users := step.store))
    case SignIn(body) =>
      (Handlers.Login(st.users, body, matches), st)
    case NewAdmin(body) =>
      var step := Handlers.AddNewAdmin(st.users, body);
      (step.response, st.(users := step.store))
    case NewDoctor(body, files, upload) =>
      var step := Handlers.AddNewDoctor(st.users, body, files, upload);
      (step.response, st.(users := step.store))
    case Doctors =>
      (Handlers.GetAllDoctors(st.users), st)
    case Me(user) =>
      (Handlers.GetUserDetails(user), st)
    case AdminLogout =>
      var out := Handlers.LogoutAdmin(st.cookies);
      (out.0, st.(cookies := out.1))
    case PatientLogout =>
      var out := Handlers.LogoutPatient(st.cookies);
      (out.0, st.(cookies := out.1))
  }

  /** The state after handling `reqs` in order. */
  function Run(st: State, reqs: seq<Request>, matches: (string, string) -> bool): State
    decreases |reqs|
  {
    if reqs == [] then st else Run(Handle(st, reqs[0], matches).1, reqs[1..], matches)
  }

  /** How many requests of `reqs` created a record. */
  function Creations(st: State, reqs: seq<Request>, matches: (string, string) -> bool): nat
    decreases |reqs|
  {
    if reqs == [] then 0
    else
      var r := Handle(st, reqs[0], matches);
      (if reqs[0].Creates() && !r.0.Failure? then 1 else 0) + Creations(r.1, reqs[1..], matches)
  }

  /** Every sequence of requests keeps the store consistent. */
  lemma {:induction false} RunConsistent(st: State, reqs: seq<Request>, matches: (string, string) -> bool)
    requires Consistent(st.users)
    ensures Consistent(Run(st, reqs, matches).users)
    decreases |reqs|
  {
    if reqs != [] {
      RunConsistent(Handle(st, reqs[0], matches).1, reqs[1..], matches);
    }
  }

  /** So after any sequence of requests no two records share an email. */
  lemma EmailsStayUnique(st: State, reqs: seq<Request>, matches: (string, string) -> bool)
    requires Consistent(st.users)
    ensures var s := Run(st, reqs, matches).users;
            forall u, v :: u in s.Values && v in s.Values && u.email == v.email ==> u == v
  {
    RunConsistent(st, reqs, matches);
    EmailsUnique(Run(st, reqs, matches).users);
  }

  /** A stored record is never replaced or removed; in particular its role never changes. */
  lemma {:induction false} RunKeepsRecords(st: State, reqs: seq<Request>, matches: (string, string) -> bool)
    ensures forall e :: e in st.users ==>
              e in Run(st, reqs, matches).users && Run(st, reqs, matches).users[e] == st.users[e]
    decreases |reqs|
  {
    if reqs != [] {
      RunKeepsRecords(Handle(st, reqs[0], matches).1, reqs[1..], matches);
    }
  }

  /** The store grows by exactly one record per successful creation and by nothing else. */
  lemma {:induction false} RunCountsCreations(st: State, reqs: seq<Request>, matches: (string, string) -> bool)
    ensures |Run(st, reqs, matches).users| == |st.users| + Creations(st, reqs, matches)
    decreases |reqs|
  {
    if reqs != [] {
      RunCountsCreations(Handle(st, reqs[0], matches).1, reqs[1..], matches);
    }
  }

  /** Requests none of which is a creation leave the store as it was. */
  lemma {:induction false} ReadOnlyRun(st: State, reqs: seq<Request>, matches: (string, string) -> bool)
    requires forall i :: 0 <= i < |reqs| ==> !reqs[i].Creates()
    ensures Run(st, reqs, matches).users == st.users
    decreases |reqs|
  {
    if reqs != [] {
      ReadOnlyRun(Handle(st, reqs[0], matches).1, reqs[1..], matches);
    }
  }

  /** No cookie other than the two session cookies is ever changed. */
  lemma {:induction false} RunKeepsOtherCookies(st: State, reqs: seq<Request>, matches: (string, string) -> bool)
    ensures forall n :: !SessionCookie(n) ==>
              (n in Run(st, reqs, matches).cookies <==> n in st.cookies)
    ensures forall n :: !SessionCookie(n) && n in st.cookies ==>
              Run(st, reqs, matches).cookies[n] == st.cookies[n]
    decreases |reqs|
  {
    if reqs != [] {
      RunKeepsOtherCookies(Handle(st, reqs[0], matches).1, reqs[1..], matches);
    }
  }

  /**
   Once a creation succeeds for an email, a later creation for the same
   email, whatever its role, is rejected and changes nothing.
   */
  lemma SameEmailTwice(st: State, first: Request, second: Request, matches: (string, string) -> bool)
    requires first.Creates() && second.Creates()
    requires Value(first.body, "email") == Value(second.body, "email")
    requires !Handle(st, first, matches).0.Failure?
    ensures var mid := Handle(st, first, matches).1;
            Handle(mid, second, matches).0.Failure? && Handle(mid, second, matches).1 == mid
  {
  }

  /**
   A user just created, of any role, can log in with the same email and
   password, as long as the verifier accepts a password for the credential
   stored from it.
   */
  lemma CreatedUserCanSignIn(st: State, create: Request, body: Body, matches: (string, string) -> bool)
    requires create.Creates()
    requires !Handle(st, create, matches).0.Failure?
    requires Value(body, "email") == Value(create.body, "email")
    requires Value(body, "password") == Value(create.body, "password")
    requires Value(body, "confirmPassword") == Value(body, "password")
    requires forall p :: matches(p, p)
    ensures var after := Handle(st, create, matches).1;
            && Handle(after, SignIn(body), matches).0 == TokenIssued(after.users[Value(body, "email")], USER_LOGGED_IN)
            && after.users[Value(body, "email")].role == CreatedRole(create)
  {
  }
}
