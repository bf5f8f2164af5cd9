/** The User schema: the role enumeration and its default, the trimmed name,
    the lower-cased and pattern-checked email, the unique email and phone
    indexes, the minimum password length, and the `toJSON` projection that
    leaves the password out. */
module UserModel {
  import opened Common

  datatype Role = Individual | ServiceProvider | Admin | HssmProvider

  function RoleName(r: Role): string {
    match r
    case Individual => "individual"
    case ServiceProvider => "service-provider"
    case Admin => "admin"
    case HssmProvider => "HSSM-provider"
  }

  const DefaultRole: Role := Individual

  /** The role a new document gets from the `role` value it is given: the
      default when none is given, None when the value is outside the enum. */
  function RoleFrom(given: Option<string>): (r: Option<Role>)
    ensures given.None? ==> r == Some(DefaultRole)
    ensures given.Some? ==> forall role :: r == Some(role) <==> RoleName(role) == given.value
  {
    match given
    case None => Some(DefaultRole)
    case Some(s) =>
      if s == "individual" then Some(Individual)
      else if s == "service-provider" then Some(ServiceProvider)
      else if s == "admin" then Some(Admin)
      else if s == "HSSM-provider" then Some(HssmProvider)
      else None
  }

  datatype User = User(
    id: Id,
    name: string,
    email: string,
    phone: string,
    password: string,
    role: Role,
    deviceToken: Option<string>)

  const MinPasswordLength := 8

  // ---- the email pattern  ^\w+([\.-]?\w+)*@\w+([\.-]?\w+)*(\.\w{2,3})+$ ----

  /** `\w`: an ASCII letter, digit or underscore. */
  predicate IsWordChar(c: char) {
    ('a' <= c <= 'z') || ('A' <= c <= 'Z') || ('0' <= c <= '9') || c == '_'
  }

  predicate IsSeparator(c: char) {
    c == '.' || c == '-'
  }

  /** The strings `\w+([\.-]?\w+)*` matches: runs of word characters joined
      by single dots or hyphens, with a word character at both ends. */
  predicate IsDotted(t: string) {
    && |t| > 0
    && IsWordChar(t[0])
    && IsWordChar(t[|t| - 1])
    && (forall i :: 0 <= i < |t| ==> IsWordChar(t[i]) || IsSeparator(t[i]))
    && (forall i :: 0 <= i < |t| - 1 ==> IsWordChar(t[i]) || IsWordChar(t[i + 1]))
  }

  /** `t` ends in a dot and a final run of exactly `k` word characters, and
      what precedes that dot is dotted. */
  predicate EndsInSuffix(t: string, k: nat) {
    && |t| >= k + 2
    && t[|t| - k - 1] == '.'
    && (forall i :: |t| - k <= i < |t| ==> IsWordChar(t[i]))
    && IsDotted(t[..|t| - k - 1])
  }

  /** The strings `\w+([\.-]?\w+)*(\.\w{2,3})+` matches: the last group is a
      dot and two or three word characters, and since a dotted string
      followed by such a group is itself dotted, everything before the last
      group is simply dotted. */
  predicate IsDomain(t: string) {
    EndsInSuffix(t, 2) || EndsInSuffix(t, 3)
  }

  /** The email validator of the schema, over the whole string. */
  predicate MatchesEmailPattern(s: string) {
    exists i :: 0 <= i < |s| && s[i] == '@' && IsDotted(s[..i]) && IsDomain(s[i + 1..])
  }

  /** A dotted string holds no '@'. */
  lemma DottedHasNoAt(t: string)
    requires IsDotted(t)
    ensures forall i :: 0 <= i < |t| ==> t[i] != '@'
  {
  }

  /** A domain holds no '@'. */
  lemma DomainHasNoAt(d: string)
    requires IsDomain(d)
    ensures forall i :: 0 <= i < |d| ==> d[i] != '@'
  {
    var k := if EndsInSuffix(d, 2) then 2 else 3;
    var m := |d| - k - 1;
    DottedHasNoAt(d[..m]);
    forall i | 0 <= i < |d| ensures d[i] != '@' {
      if i < m {
        assert d[i] == d[..m][i];
      }
    }
  }

  /** An address the validator accepts holds exactly one '@', so the split
      at it is the only one that can satisfy the pattern. */
  lemma EmailHasOneAt(s: string, i: int)
    requires 0 <= i < |s| && s[i] == '@' && IsDotted(s[..i]) && IsDomain(s[i + 1..])
    ensures forall j :: 0 <= j < |s| && j != i ==> s[j] != '@'
  {
    DottedHasNoAt(s[..i]);
    DomainHasNoAt(s[i + 1..]);
    forall j | 0 <= j < |s| && j != i ensures s[j] != '@' {
      if j < i {
        assert s[j] == s[..i][j];
      } else {
        assert s[j] == s[i + 1..][j - i - 1];
      }
    }
  }

  /** The `lowercase` setter on ASCII letters. */
  function LowerChar(c: char): (r: char)
    ensures 'A' <= c <= 'Z' ==> 'a' <= r <= 'z'
    ensures !('A' <= c <= 'Z') ==> r == c
  {
    if 'A' <= c <= 'Z' then (c as int - 'A' as int + 'a' as int) as char else c
  }

  function Lower(s: string): (r: string)
    ensures |r| == |s|
    ensures forall i :: 0 <= i < |s| ==> r[i] == LowerChar(s[i])
  {
    if s == [] then [] else [LowerChar(s[0])] + Lower(s[1..])
  }

  /** Lower-casing a lower-cased string changes nothing. */
  lemma LowerIdempotent(s: string)
    ensures Lower(Lower(s)) == Lower(s)
  {
  }

  /** What the schema accepts in a stored user. */
  predicate ValidUser(u: User) {
    && u.name != "" && u.name == Trim(u.name)
    && u.email == Lower(u.email) && MatchesEmailPattern(u.email)
    && u.phone != ""
    && |u.password| >= MinPasswordLength
  }

  /** Every stored user is valid, sits under its own id, and the unique
      indexes on email and phone hold. */
  predicate ValidUsers(users: map<Id, User>) {
    && (forall id :: id in users ==> users[id].id == id && ValidUser(users[id]))
    && (forall a, b :: a in users && b in users && a != b ==>
          users[a].email != users[b].email && users[a].phone != users[b].phone)
  }

  /** The document `new User({...})` builds and validates: `name` trimmed,
      `email` lower-cased, `role` defaulted; None when a validator fails. */
  function NewUser(id: Id, name: string, email: string, phone: string, password: string,
                   role: Option<string>, deviceToken: Option<string>): (r: Option<User>)
    ensures r.Some? ==> ValidUser(r.value) && r.value.id == id
    ensures r.Some? ==> r.value.name == Trim(name) && r.value.email == Lower(email)
    ensures r.Some? ==> r.value.phone == phone && r.value.password == password
    ensures r.Some? && role.None? ==> r.value.role == Individual
    ensures r.Some? ==> Some(r.value.role) == RoleFrom(role) && r.value.deviceToken == deviceToken
    ensures r.Some? <==> (Trim(name) != "" && MatchesEmailPattern(Lower(email)) && phone != ""
                          && |password| >= MinPasswordLength && RoleFrom(role).Some?)
  {
    var n := Trim(name);
    var e := Lower(email);
    match RoleFrom(role)
    case None => None
    case Some(ro) =>
      if n != "" && MatchesEmailPattern(e) && phone != "" && |password| >= MinPasswordLength then
        TrimIdempotent(name);
        LowerIdempotent(email);
        Some(User(id, n, e, phone, password, ro, deviceToken))
      else None
  }

  /** No stored user has the id, the email or the phone of `u`. */
  predicate Unclaimed(users: map<Id, User>, u: User) {
    && u.id !in users
    && forall id :: id in users ==> users[id].email != u.email && users[id].phone != u.phone
  }

  /** Saving a new user against the unique indexes: None (a duplicate key
      error) when the id, the email or the phone is already taken. */
  function InsertUser(users: map<Id, User>, u: User): (r: Option<map<Id, User>>)
    requires ValidUsers(users) && ValidUser(u)
    ensures r.Some? <==> Unclaimed(users, u)
    ensures r.Some? ==> ValidUsers(r.value) && r.value == users[u.id := u]
  {
    if Unclaimed(users, u) then
      InsertKeepsUsersValid(users, u);
      Some(users[u.id := u])
    else None
  }

  lemma InsertKeepsUsersValid(users: map<Id, User>, u: User)
    requires ValidUsers(users) && ValidUser(u) && Unclaimed(users, u)
    ensures ValidUsers(users[u.id := u])
  {
    var m := users[u.id := u];
    forall a, b | a in m && b in m && a != b
      ensures m[a].email != m[b].email && m[a].phone != m[b].phone
    {
      if a == u.id {
        assert m[b] == users[b];
      } else if b == u.id {
        assert m[a] == users[a];
      } else {
        assert m[a] == users[a] && m[b] == users[b];
      }
    }
  }

  /** The output of `toJSON`: every field of the record except the password. */
  datatype PublicUser = PublicUser(
    id: Id,
    name: string,
    email: string,
    phone: string,
    role: Role,
    deviceToken: Option<string>)

  function ToJson(u: User): (j: PublicUser)
    ensures j.id == u.id && j.name == u.name && j.email == u.email && j.phone == u.phone
    ensures j.role == u.role && j.deviceToken == u.deviceToken
  {
    PublicUser(u.id, u.name, u.email, u.phone, u.role, u.deviceToken)
  }

  /** The projection depends on every field but the password: two records
      that differ at most in their password look the same, and records
      that look the same differ at most in their password. */
  lemma ToJsonForgetsOnlyPassword(u: User, v: User)
    ensures ToJson(u) == ToJson(v) <==> u.(password := v.password) == v
  {
  }
}
