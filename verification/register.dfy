/**
  The registration route `POST /api/auth/register`: required fields, the email
  pattern `^[^\s@]+@[^\s@]+\.[^\s@]+$`, a minimum password length and a unique
  email, then a new client account stored with a hashed password.
 */
module Registration {
  import opened Common
  import opened Domain
  import opened Text

  /** The request body; absent strings are `""`. */
  datatype RegisterRequest = RegisterRequest(
    email: string,
    password: string,
    firstName: string,
    lastName: string,
    phone: string)

  /** The account as returned: every stored field but the password. */
  datatype PublicUser = PublicUser(
    id: string,
    email: string,
    firstName: string,
    lastName: string,
    phone: Option<string>,
    role: Role)

  const MinPasswordLength := 6

  // ---------------------------------------------------------------------------
  // The email pattern

  /** A run of one or more characters that are neither whitespace nor `@` (the regex `[^\s@]+`). */
  predicate Part(s: string)
  {
    |s| > 0 && forall i :: 0 <= i < |s| ==> !IsSpace(s[i]) && s[i] != '@'
  }

  /** `e` reads as part, `@` at `at`, part, `.` at `dot`, part. */
  predicate SplitsAsEmail(e: string, at: int, dot: int)
  {
    && 0 < at && at + 1 < dot && dot + 1 < |e|
    && e[at] == '@' && e[dot] == '.'
    && Part(e[..at]) && Part(e[at + 1..dot]) && Part(e[dot + 1..])
  }

  /** The declarative reading of the regex: some choice of `@` and `.` positions fits. */
  ghost predicate EmailPattern(e: string)
  {
    exists at, dot :: SplitsAsEmail(e, at, dot)
  }

  /** The position of the first `c` in `s`, if any. */
  function IndexOf(s: string, c: char): (r: Option<nat>)
    ensures r.Some? ==> r.value < |s| && s[r.value] == c && c !in s[..r.value]
    ensures r.None? <==> c !in s
    decreases |s|
  {
    if |s| == 0 then None
    else if s[0] == c then Some(0)
    else
      match IndexOf(s[1..], c)
      case None => None
      case Some(k) =>
        assert s[..k + 1] == [s[0]] + s[1..][..k];
        Some(k + 1)
  }

  /** The email check as a computation: split at the first `@`, then look for an inner `.`. */
  predicate ValidEmail(e: string)
  {
    match IndexOf(e, '@')
    case None => false
    case Some(at) =>
      var domain := e[at + 1..];
      at > 0 && Part(e[..at]) && |domain| >= 3 && Part(domain) && '.' in domain[1..|domain| - 1]
  }

  /** A position holding the first occurrence of `c` is what `IndexOf` finds. */
  lemma {:induction false} FirstIndex(s: string, c: char, i: nat)
    requires i < |s| && s[i] == c && c !in s[..i]
    ensures IndexOf(s, c) == Some(i)
    decreases |s|
  {
    if i > 0 {
      assert s[..i][0] == s[0];
      assert s[1..][..i - 1] == s[..i][1..];
      FirstIndex(s[1..], c, i - 1);
    }
  }

  /** A non-empty slice of a part is a part. */
  lemma PartSlice(s: string, i: int, j: int)
    requires Part(s) && 0 <= i < j <= |s|
    ensures Part(s[i..j])
  {
    assert forall k :: 0 <= k < j - i ==> s[i..j][k] == s[i + k];
  }

  /** Two parts around a `.` make a part. */
  lemma PartAroundDot(a: string, b: string)
    requires Part(a) && Part(b)
    ensures Part(a + ['.'] + b)
  {
    var s := a + ['.'] + b;
    forall k | 0 <= k < |s|
      ensures !IsSpace(s[k]) && s[k] != '@'
    {
      if k < |a| {
        assert s[k] == a[k];
      } else if k > |a| {
        assert s[k] == b[k - |a| - 1];
      }
    }
  }

  lemma ValidEmailFitsPattern(e: string)
    requires ValidEmail(e)
    ensures EmailPattern(e)
  {
    var at := IndexOf(e, '@').value;
    var domain := e[at + 1..];
    var inner := domain[1..|domain| - 1];
    var k :| 0 <= k < |inner| && inner[k] == '.';
    var dot := at + 2 + k;
    assert e[dot] == '.';
    assert e[at + 1..dot] == domain[..k + 1];
    PartSlice(domain, 0, k + 1);
    assert e[dot + 1..] == domain[k + 2..];
    PartSlice(domain, k + 2, |domain|);
    assert SplitsAsEmail(e, at, dot);
  }

  lemma PatternIsValidEmail(e: string, at: int, dot: int)
    requires SplitsAsEmail(e, at, dot)
    ensures ValidEmail(e)
  {
    assert '@' !in e[..at];
    FirstIndex(e, '@', at);
    var domain := e[at + 1..];
    assert domain == e[at + 1..dot] + ['.'] + e[dot + 1..];
    PartAroundDot(e[at + 1..dot], e[dot + 1..]);
    assert domain[1..|domain| - 1][dot - at - 2] == '.';
  }

  /** The computed check accepts exactly the strings the pattern matches. */
  lemma ValidEmailMatchesPattern(e: string)
    ensures ValidEmail(e) <==> EmailPattern(e)
  {
    if ValidEmail(e) {
      ValidEmailFitsPattern(e);
    }
    if EmailPattern(e) {
      var at, dot :| SplitsAsEmail(e, at, dot);
      PatternIsValidEmail(e, at, dot);
    }
  }

  /** A plain address is accepted. */
  lemma PlainAddressAccepted()
    ensures ValidEmail("jo@a.pl")
  {
    var e := "jo@a.pl";
    assert Part(e[..2]) && Part(e[3..4]) && Part(e[5..]);
    PatternIsValidEmail(e, 2, 4);
  }

  /** A domain without an inner dot is refused. */
  lemma DotlessDomainRefused()
    ensures !ValidEmail("jan@pl")
  {
    assert IndexOf("jan@pl", '@') == Some(3);
  }

  /** A second `@` is refused. */
  lemma SecondAtRefused()
    ensures !ValidEmail("jan@a@b.pl")
  {
    assert IndexOf("jan@a@b.pl", '@') == Some(3);
    assert "jan@a@b.pl"[4..][1] == '@';
  }

  // ---------------------------------------------------------------------------
  // The handler

  predicate HasRequiredFields(req: RegisterRequest)
  {
    req.email != "" && req.password != "" && req.firstName != "" && req.lastName != ""
  }

  function Public(u: User): (p: PublicUser)
    ensures p.id == u.id && p.email == u.email && p.firstName == u.firstName && p.lastName == u.lastName
    ensures p.phone == u.phone && p.role == u.role
  {
    PublicUser(u.id, u.email, u.firstName, u.lastName, u.phone, u.role)
  }

  /**
    `POST /api/auth/register`. The password hash (bcrypt, cost 12) is the
    parameter `hash`.
   */
  function Register(st: Store, req: RegisterRequest, hash: string -> string, newId: string): (r: (Response<PublicUser>, Store))
    ensures r.0.Fail? ==> r.1 == st
    ensures !HasRequiredFields(req) ==> r.0 == Fail(BadRequest, "Wszystkie pola są wymagane")
    ensures HasRequiredFields(req) && !ValidEmail(req.email) ==>
      r.0 == Fail(BadRequest, "Niepoprawny format email")
    ensures HasRequiredFields(req) && ValidEmail(req.email) && |req.password| < MinPasswordLength ==>
      r.0 == Fail(BadRequest, "Hasło musi mieć co najmniej 6 znaków")
    ensures (HasRequiredFields(req) && ValidEmail(req.email) && |req.password| >= MinPasswordLength
             && EmailTaken(st, req.email)) ==> r.0 == Fail(BadRequest, "Użytkownik z tym emailem już istnieje")
    ensures r.0.Ok? <==>
      HasRequiredFields(req) && ValidEmail(req.email) && |req.password| >= MinPasswordLength && !EmailTaken(st, req.email)
    ensures r.0.Ok? ==>
      && r.1 == st.(users := st.users + [User(newId, req.email, hash(req.password), req.firstName, req.lastName,
                                             if req.phone == "" then None else Some(req.phone), Client)])
      && r.0.data == Public(r.1.users[|r.1.users| - 1])
  {
    if !HasRequiredFields(req) then
      (Fail(BadRequest, "Wszystkie pola są wymagane"), st)
    else if !ValidEmail(req.email) then
      (Fail(BadRequest, "Niepoprawny format email"), st)
    else if |req.password| < MinPasswordLength then
      (Fail(BadRequest, "Hasło musi mieć co najmniej 6 znaków"), st)
    else if exists u :: u in st.users && u.email == req.email then
      (Fail(BadRequest, "Użytkownik z tym emailem już istnieje"), st)
    else
      var user := User(newId, req.email, hash(req.password), req.firstName, req.lastName,
                       if req.phone == "" then None else Some(req.phone), Client);
      (Ok(Public(user)), st.(users := st.users + [user]))
  }

  lemma RegisterKeepsEmailsUnique(st: Store, req: RegisterRequest, hash: string -> string, newId: string)
    requires UniqueEmails(st.users)
    ensures UniqueEmails(Register(st, req, hash, newId).1.users)
  {
    var r := Register(st, req, hash, newId);
    if r.0.Ok? {
      var us := r.1.users;
      forall i | 0 <= i < |st.users|
        ensures us[i].email != req.email
      {
        assert us[i] in st.users;
      }
    }
  }

  /** Registering the same email a second time is refused and stores nothing. */
  lemma SecondRegistrationRefused(st: Store, req: RegisterRequest, req2: RegisterRequest,
                                  hash: string -> string, id1: string, id2: string)
    requires Register(st, req, hash, id1).0.Ok?
    requires HasRequiredFields(req2) && req2.email == req.email && |req2.password| >= MinPasswordLength
    ensures Register(Register(st, req, hash, id1).1, req2, hash, id2).0
      == Fail(BadRequest, "Użytkownik z tym emailem już istnieje")
  {
    var st1 := Register(st, req, hash, id1).1;
    assert st1.users[|st1.users| - 1] in st1.users;
  }

  /** A registered account always has the client role and the hashed password. */
  lemma RegisteredAsClient(st: Store, req: RegisterRequest, hash: string -> string, newId: string)
    requires Register(st, req, hash, newId).0.Ok?
    ensures Register(st, req, hash, newId).0.data.role == Client
    ensures Register(st, req, hash, newId).1.users[|st.users|].password == hash(req.password)
  {
  }
}
