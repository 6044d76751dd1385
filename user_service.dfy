/** The user service: three validators that check a field in a fixed order and
    report the first problem, create/read/update/delete operations over an
    insertion-ordered store of users, and three line-based formatters. */
module Users {
  import opened Optional
  import opened Text

  /** A stored user; `createdAt`/`updatedAt` are instants in milliseconds. */
  datatype User = User(id: string, name: string, email: string, role: string, createdAt: int, updatedAt: int)

  datatype CreateUserInput = CreateUserInput(name: string, email: string, role: string)

  /** An absent field is left as it is. */
  datatype UpdateUserInput = UpdateUserInput(name: Option<string>, email: Option<string>, role: Option<string>)

  /** A validator's verdict: `{ valid: true }` or `{ valid: false, error }`. */
  datatype Validation = Accepted | Rejected(error: string)

  /** The service's `{ success, data?, error? }` answer. */
  datatype Reply<T> = Success(data: T) | Failure(error: string)

  const NameRequired := "Name is required"
  const NameTooShort := "Name must be at least 2 characters"
  const NameTooLong := "Name must be less than 100 characters"
  const NameInvalid := "Name contains invalid characters"
  const EmailRequired := "Email is required"
  const EmailTooShort := "Email must be at least 5 characters"
  const EmailTooLong := "Email must be less than 255 characters"
  const EmailInvalid := "Email format is invalid"
  const RoleRequired := "Role is required"
  const RoleInvalid := "Role must be admin, editor, or viewer"
  const IdRequired := "User ID is required"
  const NotFound := "User not found"
  const IdPrefix := "user_"

  const Roles: seq<string> := ["admin", "editor", "viewer"]

  // ---------------------------------------------------------------- validators

  /** A character of the class `[a-zA-Z\s'-]`. */
  predicate NameChar(c: char) {
    IsAsciiLetter(c) || IsSpace(c) || c == '\'' || c == '-'
  }

  /** `validateUserName`: emptiness, then length 2..100, then the character class.
      Lengths are JavaScript's, in UTF-16 code units. The class is tested per
      character: a character beyond U+FFFF is outside it, as are both halves of
      its surrogate pair, so the outcome is the one the code-unit regex gives. */
  function ValidateUserName(name: string): (r: Validation)
    ensures r == Accepted <==>
      2 <= Utf16Length(name) <= 100 && forall i :: 0 <= i < |name| ==> NameChar(name[i])
    ensures name == "" ==> r == Rejected(NameRequired)
    ensures name != "" && Utf16Length(name) < 2 ==> r == Rejected(NameTooShort)
    ensures Utf16Length(name) > 100 ==> r == Rejected(NameTooLong)
    ensures 2 <= Utf16Length(name) <= 100 && (exists i :: 0 <= i < |name| && !NameChar(name[i]))
      ==> r == Rejected(NameInvalid)
  {
    if name == "" then Rejected(NameRequired)
    else if Utf16Length(name) < 2 then Rejected(NameTooShort)
    else if Utf16Length(name) > 100 then Rejected(NameTooLong)
    else if !(forall i :: 0 <= i < |name| ==> NameChar(name[i])) then Rejected(NameInvalid)
    else Accepted
  }

  /** No character of `s` is matched by `\s`. */
  predicate NoSpace(s: string) {
    forall i :: 0 <= i < |s| ==> !IsSpace(s[i])
  }

  lemma NoSpaceConcat(x: string, y: string)
    ensures NoSpace(x + y) <==> NoSpace(x) && NoSpace(y)
  {
    if NoSpace(x + y) {
      assert forall i :: 0 <= i < |x| ==> x[i] == (x + y)[i];
      assert forall i :: 0 <= i < |y| ==> y[i] == (x + y)[|x| + i];
    }
  }

  /** A non-empty run of characters of the class `[^\s@]`. */
  predicate Atom(s: string) {
    s != [] && NoSpace(s) && '@' !in s
  }

  /** What `^[^\s@]+@[^\s@]+\.[^\s@]+$` accepts, read off the pattern: three
      atoms joined by `@` and by a dot. */
  ghost predicate EmailPattern(s: string) {
    exists a, b, c :: Atom(a) && Atom(b) && Atom(c) && s == a + "@" + b + "." + c
  }

  /** The same language decided by scanning: no whitespace anywhere, exactly one
      `@`, not in front, and a dot after it with at least one character on
      either side. */
  predicate EmailShape(s: string) {
    && NoSpace(s)
    && '@' in s
    && var k := IndexOf(s, '@');
    && 0 < k
    && '@' !in s[k + 1..]
    && exists j :: k + 1 < j < |s| - 1 && s[j] == '.'
  }

  /** The first occurrence of a character is where it is seen first. */
  lemma IndexOfFirst(s: string, c: char, k: nat)
    requires k < |s| && s[k] == c && c !in s[..k]
    ensures c in s && IndexOf(s, c) == k
  {
  }

  /** A slice of a string without whitespace has none either. */
  lemma NoSpaceSlice(s: string, i: nat, j: nat)
    requires NoSpace(s) && i <= j <= |s|
    ensures NoSpace(s[i..j])
  {
    assert forall m :: 0 <= m < j - i ==> s[i..j][m] == s[i + m];
  }

  /** Cutting a scanned address at its `@` and at a later dot gives three atoms
      that rebuild it. */
  lemma ShapeParts(s: string, k: nat, j: nat)
    requires NoSpace(s) && 0 < k && k + 1 < j < |s| - 1
    requires s[k] == '@' && s[j] == '.' && '@' !in s[..k] && '@' !in s[k + 1..]
    ensures Atom(s[..k]) && Atom(s[k + 1..j]) && Atom(s[j + 1..])
    ensures s == s[..k] + "@" + s[k + 1..j] + "." + s[j + 1..]
  {
    NoSpaceSlice(s, 0, k);
    NoSpaceSlice(s, k + 1, j);
    NoSpaceSlice(s, j + 1, |s|);
    assert s[k + 1..j] == s[k + 1..][..j - k - 1];
    assert s[j + 1..] == s[k + 1..][j - k..];
    assert s == s[..k] + [s[k]] + s[k + 1..j] + [s[j]] + s[j + 1..];
  }

  /** A scanned address splits into the pattern's three atoms. */
  lemma ShapeIsPattern(s: string)
    requires EmailShape(s)
    ensures EmailPattern(s)
  {
    var k := IndexOf(s, '@');
    var j :| k + 1 < j < |s| - 1 && s[j] == '.';
    ShapeParts(s, k, j);
    var a, b, c := s[..k], s[k + 1..j], s[j + 1..];
    assert Atom(a) && Atom(b) && Atom(c) && s == a + "@" + b + "." + c;
  }

  /** Joining whitespace-free atoms with `@` and a dot adds no whitespace. */
  lemma PartsNoSpace(a: string, b: string, c: string)
    requires NoSpace(a) && NoSpace(b) && NoSpace(c)
    ensures NoSpace(a + "@" + b + "." + c)
  {
    assert NoSpace("@") && NoSpace(".");
    NoSpaceConcat(a, "@");
    NoSpaceConcat(a + "@", b);
    NoSpaceConcat(a + "@" + b, ".");
    NoSpaceConcat(a + "@" + b + ".", c);
  }

  /** An address of the pattern's form passes the scan. */
  lemma PartsAreShape(a: string, b: string, c: string)
    requires Atom(a) && Atom(b) && Atom(c)
    ensures EmailShape(a + "@" + b + "." + c)
  {
    var s := a + "@" + b + "." + c;
    PartsNoSpace(a, b, c);
    var k := |a|;
    assert s[k] == '@' && s[..k] == a;
    IndexOfFirst(s, '@', k);
    assert s[k + 1..] == b + "." + c;
    assert '@' !in b + "." + c;
    assert s[k + 1 + |b|] == '.';
  }

  lemma PatternIsShape(s: string)
    requires EmailPattern(s)
    ensures EmailShape(s)
  {
    var a, b, c :| Atom(a) && Atom(b) && Atom(c) && s == a + "@" + b + "." + c;
    PartsAreShape(a, b, c);
  }

  /** The scanning decision agrees with the pattern on every string. */
  lemma EmailShapeIsPattern(s: string)
    ensures EmailShape(s) <==> EmailPattern(s)
  {
    if EmailShape(s) { ShapeIsPattern(s); }
    if EmailPattern(s) { PatternIsShape(s); }
  }

  /** `validateUserEmail`: emptiness, then length 5..255 in UTF-16 code units,
      then the pattern. `[^\s@]` admits a character beyond U+FFFF and both halves
      of its surrogate pair alike, so testing the pattern per character agrees
      with the code-unit regex. */
  function ValidateUserEmail(email: string): (r: Validation)
    ensures r == Accepted <==> 5 <= Utf16Length(email) <= 255 && EmailPattern(email)
    ensures email == "" ==> r == Rejected(EmailRequired)
    ensures email != "" && Utf16Length(email) < 5 ==> r == Rejected(EmailTooShort)
    ensures Utf16Length(email) > 255 ==> r == Rejected(EmailTooLong)
    ensures 5 <= Utf16Length(email) <= 255 && !EmailPattern(email) ==> r == Rejected(EmailInvalid)
  {
    EmailShapeIsPattern(email);
    if email == "" then Rejected(EmailRequired)
    else if Utf16Length(email) < 5 then Rejected(EmailTooShort)
    else if Utf16Length(email) > 255 then Rejected(EmailTooLong)
    else if !EmailShape(email) then Rejected(EmailInvalid)
    else Accepted
  }

  /** `validateUserRole`: emptiness, then membership in the three roles. */
  function ValidateUserRole(role: string): (r: Validation)
    ensures r == Accepted <==> role == "admin" || role == "editor" || role == "viewer"
    ensures role == "" ==> r == Rejected(RoleRequired)
    ensures role != "" && role !in Roles ==> r == Rejected(RoleInvalid)
  {
    if role == "" then Rejected(RoleRequired)
    else if role !in Roles then Rejected(RoleInvalid)
    else Accepted
  }

  /** The first validation error of a creation request: name, then email, then role. */
  function FirstError(input: CreateUserInput): (r: Option<string>)
    ensures r == None <==>
      ValidateUserName(input.name) == Accepted
      && ValidateUserEmail(input.email) == Accepted
      && ValidateUserRole(input.role) == Accepted
    ensures ValidateUserName(input.name).Rejected? ==> r == Some(ValidateUserName(input.name).error)
  {
    var name := ValidateUserName(input.name);
    var email := ValidateUserEmail(input.email);
    var role := ValidateUserRole(input.role);
    if name.Rejected? then Some(name.error)
    else if email.Rejected? then Some(email.error)
    else if role.Rejected? then Some(role.error)
    else None
  }

  /** An apostrophe and a space are name characters; a digit is not. */
  lemma NameExamples()
    ensures ValidateUserName("Mary O'Brien") == Accepted
    ensures ValidateUserName("A") == Rejected(NameTooShort)
    ensures ValidateUserName("Alice123") == Rejected(NameInvalid)
  {
    assert !NameChar("Alice123"[5]);
  }

  /** Three atoms around `@` and a dot make an acceptable address of a valid length. */
  lemma AtomsAccepted(local: string, domain: string, tld: string)
    requires Atom(local) && Atom(domain) && Atom(tld)
    requires Utf16Length(local) + Utf16Length(domain) + Utf16Length(tld) + 2 <= 255
    ensures ValidateUserEmail(local + "@" + domain + "." + tld) == Accepted
  {
    AddressLength(local, domain, tld);
    assert EmailPattern(local + "@" + domain + "." + tld);
  }

  /** The separators `@` and `.` add one code unit each. */
  lemma AddressLength(local: string, domain: string, tld: string)
    ensures Utf16Length(local + "@" + domain + "." + tld)
      == Utf16Length(local) + Utf16Length(domain) + Utf16Length(tld) + 2
  {
    assert Utf16Length("@") == 1 && Utf16Length(".") == 1;
    Utf16LengthConcat(local, "@");
    Utf16LengthConcat(local + "@", domain);
    Utf16LengthConcat(local + "@" + domain, ".");
    Utf16LengthConcat(local + "@" + domain + ".", tld);
  }

  /** A lone emoji is two code units long, so it passes the length test and is
      refused by the character class. */
  lemma AstralName()
    ensures ValidateUserName(['\U{1F600}']) == Rejected(NameInvalid)
  {
    assert !NameChar(['\U{1F600}'][0]);
  }

  /** 127 emoji before `@a.b` make 258 code units: too long, though only 131
      characters. */
  lemma AstralEmailTooLong()
    ensures ValidateUserEmail(Repeat('\U{1F600}', 127) + "@a.b") == Rejected(EmailTooLong)
  {
    Utf16LengthAstral('\U{1F600}', 127);
    Utf16LengthConcat(Repeat('\U{1F600}', 127), "@a.b");
  }

  /** `test@example.com` and the two addresses the listing scenario creates
      users with, written as their atoms and separators, are accepted. */
  lemma EmailAcceptedExamples(local: string)
    requires local == "test" || local == "one" || local == "two"
    ensures ValidateUserEmail(local + "@" + "example" + "." + "com") == Accepted
  {
    AtomsAccepted(local, "example", "com");
  }

  /** An address whose part after the `@` holds no dot fails the scan. */
  lemma NoDotNoShape(local: string, domain: string)
    requires '@' !in local && '.' !in domain
    ensures !EmailShape(local + "@" + domain)
  {
    var m := local + "@" + domain;
    var k := |local|;
    assert m[k] == '@' && m[..k] == local;
    IndexOfFirst(m, '@', k);
    assert m[k + 1..] == domain;
    assert forall j :: k + 1 < j < |m| - 1 ==> m[j] == domain[j - k - 1];
  }

  /** A domain without a dot is refused. */
  lemma MissingDomainExample()
    ensures ValidateUserEmail("missing@domain") == Rejected(EmailInvalid)
  {
    NoDotNoShape("missing", "domain");
    assert "missing" + "@" + "domain" == "missing@domain";
    EmailShapeIsPattern("missing@domain");
  }

  /** Without an `@` there is no address. */
  lemma NoAtExample()
    ensures ValidateUserEmail("notanemail") == Rejected(EmailInvalid)
    ensures ValidateUserRole("superuser") == Rejected(RoleInvalid)
  {
    var n := "notanemail";
    assert forall i :: 0 <= i < |n| ==> n[i] != '@';
  }

  // -------------------------------------------------------------- update rules

  /** An optional field passes when it is absent or its validator accepts it. */
  predicate NameOk(input: UpdateUserInput) {
    input.name.None? || ValidateUserName(input.name.value) == Accepted
  }

  predicate EmailOk(input: UpdateUserInput) {
    input.email.None? || ValidateUserEmail(input.email.value) == Accepted
  }

  predicate RoleOk(input: UpdateUserInput) {
    input.role.None? || ValidateUserRole(input.role.value) == Accepted
  }

  /** `updateUser` on one stored user: the reply and the user as it is left in
      the store. Each given field is validated and written in turn (name, email,
      role); a rejected field ends the update without undoing the fields already
      written, and `updatedAt` moves to `now` only when every field passed. */
  function ApplyUpdate(user: User, input: UpdateUserInput, now: int): (res: (Reply<User>, User))
    ensures res.1.id == user.id && res.1.createdAt == user.createdAt
    ensures res.0.Success? <==> NameOk(input) && EmailOk(input) && RoleOk(input)
    ensures res.0.Success? ==> res.0.data == res.1
    ensures res.1.updatedAt == (if res.0.Success? then now else user.updatedAt)
    ensures !NameOk(input) ==>
      res == (Failure(ValidateUserName(input.name.value).error), user)
    ensures NameOk(input) && !EmailOk(input) ==>
      res == (Failure(ValidateUserEmail(input.email.value).error),
              user.(name := input.name.GetOr(user.name)))
    ensures NameOk(input) && EmailOk(input) && !RoleOk(input) ==>
      res == (Failure(ValidateUserRole(input.role.value).error),
              user.(name := input.name.GetOr(user.name), email := input.email.GetOr(user.email)))
    ensures NameOk(input) && EmailOk(input) && RoleOk(input) ==>
      res.1 == user.(name := input.name.GetOr(user.name), email := input.email.GetOr(user.email),
                     role := input.role.GetOr(user.role), updatedAt := now)
  {
    if !NameOk(input) then (Failure(ValidateUserName(input.name.value).error), user)
    else
      var u1 := user.(name := input.name.GetOr(user.name));
      if !EmailOk(input) then (Failure(ValidateUserEmail(input.email.value).error), u1)
      else
        var u2 := u1.(email := input.email.GetOr(user.email));
        if !RoleOk(input) then (Failure(ValidateUserRole(input.role.value).error), u2)
        else
          var u3 := u2.(role := input.role.GetOr(user.role), updatedAt := now);
          (Success(u3), u3)
  }

  /** A rejected email after an accepted name still leaves the new name stored:
      the update fails, yet the stored user is no longer the one before it. */
  lemma NoRollback(user: User, newName: string, badEmail: string, now: int)
    requires ValidateUserName(newName) == Accepted && newName != user.name
    requires ValidateUserEmail(badEmail) != Accepted
    ensures var res := ApplyUpdate(user, UpdateUserInput(Some(newName), Some(badEmail), None), now);
      res.0.Failure? && res.1 != user && res.1.name == newName && res.1.email == user.email
  {
    var input := UpdateUserInput(Some(newName), Some(badEmail), None);
    assert NameOk(input) && !EmailOk(input);
  }

  /** `updateUser` on the whole store: the id checks, then `ApplyUpdate` on the
      stored user, whose result replaces it. */
  function UpdateStore(users: map<string, User>, id: string, input: UpdateUserInput, now: int)
    : (res: (Reply<User>, map<string, User>))
    ensures res.1.Keys == users.Keys
    ensures id == "" ==> res == (Failure(IdRequired), users)
    ensures id != "" && id !in users ==> res == (Failure(NotFound), users)
    ensures forall other :: other in users && other != id ==> res.1[other] == users[other]
    ensures id != "" && id in users ==> (res.0, res.1[id]) == ApplyUpdate(users[id], input, now)
    ensures id != "" && id in users ==> res.1 == users[id := res.1[id]]
  {
    if id == "" then (Failure(IdRequired), users)
    else if id !in users then (Failure(NotFound), users)
    else
      var (reply, user) := ApplyUpdate(users[id], input, now);
      (reply, users[id := user])
  }

  // --------------------------------------------------------------- the store

  /** Writing a key twice leaves only the second write. */
  lemma Overwrite<K, V>(m: map<K, V>, k: K, first: V, second: V)
    ensures m[k := first][k := second] == m[k := second]
  {
  }

  predicate Distinct(ids: seq<string>) {
    forall i, j :: 0 <= i < j < |ids| ==> ids[i] != ids[j]
  }

  /** `ids` without `id`, order kept. */
  function Remove(ids: seq<string>, id: string): (r: seq<string>)
    ensures forall x :: x in r <==> x in ids && x != id
    ensures id !in ids ==> r == ids
    ensures Distinct(ids) ==> Distinct(r)
    ensures Distinct(ids) && id in ids ==> |r| == |ids| - 1
  {
    if ids == [] then []
    else
      var rest := Remove(ids[1..], id);
      assert ids == [ids[0]] + ids[1..];
      assert forall x :: x in ids <==> x == ids[0] || x in ids[1..];
      assert Distinct(ids) ==> Distinct(ids[1..]) && ids[0] !in ids[1..] by {
        if Distinct(ids) {
          forall i | 0 <= i < |ids[1..]| ensures ids[1..][i] != ids[0] {
            assert ids[1..][i] == ids[i + 1];
          }
        }
      }
      if ids[0] == id then rest else [ids[0]] + rest
  }

  /** The users at the listed ids, in that order. */
  function Values(ids: seq<string>, users: map<string, User>): (r: seq<User>)
    requires forall id :: id in ids ==> id in users
    ensures |r| == |ids|
    ensures forall i :: 0 <= i < |ids| ==> r[i] == users[ids[i]]
  {
    if ids == [] then [] else [users[ids[0]]] + Values(ids[1..], users)
  }

  /** A duplicate-free listing of a set's elements is as long as the set is large. */
  lemma {:induction false} DistinctCard(ids: seq<string>, keys: set<string>)
    requires Distinct(ids)
    requires forall x :: x in keys <==> x in ids
    ensures |keys| == |ids|
  {
    if ids != [] {
      var rest := keys - {ids[0]};
      assert forall x :: x in rest <==> x in ids[1..] by {
        forall x ensures x in rest <==> x in ids[1..] {
          if x in ids[1..] {
            var i :| 0 <= i < |ids[1..]| && ids[1..][i] == x;
            assert ids[i + 1] == x;
          }
          assert x in ids <==> x == ids[0] || x in ids[1..] by {
            assert ids == [ids[0]] + ids[1..];
          }
        }
      }
      DistinctCard(ids[1..], rest);
    }
  }

  /** The simulated database: a map from id to user, and the ids in the order
      they were first set (the iteration order of a JavaScript `Map`). */
  class UserStore {
    var users: map<string, User>
    var order: seq<string>

    ghost predicate Valid()
      reads this
    {
      && Distinct(order)
      && (forall id :: id in users <==> id in order)
      && (forall i :: 0 <= i < |order| ==> order[i] in users)
    }

    constructor ()
      ensures Valid() && users == map[] && order == []
    {
      users := map[];
      order := [];
    }

    /** `createUser`: the first validation error leaves the store as it is;
        otherwise one user with the input's fields, the id `user_<stamp>` and
        `createdAt == updatedAt == now` is set and returned. */
    method CreateUser(input: CreateUserInput, stamp: string, now: int) returns (r: Reply<User>)
      requires Valid()
      modifies this
      ensures Valid()
      ensures FirstError(input).Some? ==>
        r == Failure(FirstError(input).value) && users == old(users) && order == old(order)
      ensures FirstError(input).None? ==>
        var u := User(IdPrefix + stamp, input.name, input.email, input.role, now, now);
        && r == Success(u)
        && users == old(users)[u.id := u]
        && order == (if u.id in old(users) then old(order) else old(order) + [u.id])
      ensures r.Success? ==> GetUserById(r.data.id) == r
    {
      var nameValidation := ValidateUserName(input.name);
      if nameValidation.Rejected? {
        return Failure(nameValidation.error);
      }
      var emailValidation := ValidateUserEmail(input.email);
      if emailValidation.Rejected? {
        return Failure(emailValidation.error);
      }
      var roleValidation := ValidateUserRole(input.role);
      if roleValidation.Rejected? {
        return Failure(roleValidation.error);
      }
      var id := IdPrefix + stamp;
      var user := User(id, input.name, input.email, input.role, now, now);
      if id !in users {
        order := order + [id];
      }
      users := users[id := user];
      return Success(user);
    }

    /** `getUserById`. */
    function GetUserById(id: string): (r: Reply<User>)
      reads this
      ensures r.Success? <==> id != "" && id in users
      ensures r.Success? ==> r.data == users[id] && r.data in users.Values
      ensures id == "" ==> r == Failure(IdRequired)
      ensures id != "" && id !in users ==> r == Failure(NotFound)
    {
      if id == "" then Failure(IdRequired)
      else if id !in users then Failure(NotFound)
      else Success(users[id])
    }

    /** `updateUser`: the stored user's fields are overwritten one at a time as
        they pass validation, so a late rejection leaves the earlier ones written. */
    method UpdateUser(id: string, input: UpdateUserInput, now: int) returns (r: Reply<User>)
      requires Valid()
      modifies this
      ensures Valid() && order == old(order)
      ensures r == UpdateStore(old(users), id, input, now).0
      ensures users == UpdateStore(old(users), id, input, now).1
    {
      if id == "" {
        return Failure(IdRequired);
      }
      if id !in users {
        return Failure(NotFound);
      }
      var user := users[id];
      ghost var res := ApplyUpdate(user, input, now);
      if input.name.Some? {
        var nameValidation := ValidateUserName(input.name.value);
        if nameValidation.Rejected? {
          assert users == old(users)[id := user];
          return Failure(nameValidation.error);
        }
        user := user.(name := input.name.value);
        Overwrite(old(users), id, users[id], user);
        users := users[id := user];
      }
      if input.email.Some? {
        var emailValidation := ValidateUserEmail(input.email.value);
        if emailValidation.Rejected? {
          return Failure(emailValidation.error);
        }
        user := user.(email := input.email.value);
        Overwrite(old(users), id, users[id], user);
        users := users[id := user];
      }
      if input.role.Some? {
        var roleValidation := ValidateUserRole(input.role.value);
        if roleValidation.Rejected? {
          return Failure(roleValidation.error);
        }
        user := user.(role := input.role.value);
        Overwrite(old(users), id, users[id], user);
        users := users[id := user];
      }
      user := user.(updatedAt := now);
      Overwrite(old(users), id, users[id], user);
      users := users[id := user];
      return Success(users[id]);
    }

    /** `deleteUser`: removes exactly the given id, after which it is not found. */
    method DeleteUser(id: string) returns (r: Reply<()>)
      requires Valid()
      modifies this
      ensures Valid()
      ensures id == "" ==> r == Failure(IdRequired) && users == old(users) && order == old(order)
      ensures id != "" && id !in old(users) ==> r == Failure(NotFound) && users == old(users) && order == old(order)
      ensures id != "" && id in old(users) ==>
        r == Success(()) && users == old(users) - {id} && order == Remove(old(order), id)
      ensures r.Success? ==> GetUserById(id) == Failure(NotFound)
    {
      if id == "" {
        return Failure(IdRequired);
      }
      if id !in users {
        return Failure(NotFound);
      }
      users := users - {id};
      order := Remove(order, id);
      return Success(());
    }

    /** `listUsers`: every stored user once, in insertion order. */
    function ListUsers(): (r: seq<User>)
      requires Valid()
      reads this
      ensures |r| == |users| == |order|
      ensures forall i :: 0 <= i < |r| ==> r[i] == users[order[i]]
      ensures forall id :: id in users ==> users[id] in r
    {
      DistinctCard(order, users.Keys);
      var r := Values(order, users);
      assert forall id :: id in users ==> users[id] in r by {
        forall id | id in users ensures users[id] in r {
          var i :| 0 <= i < |order| && order[i] == id;
          assert r[i] == users[id];
        }
      }
      r
    }

    /** `clearUsers`. */
    method ClearUsers()
      modifies this
      ensures Valid() && users == map[] && ListUsers() == []
    {
      users := map[];
      order := [];
    }
  }

  /** Creating two valid users under distinct stamps lists two users. */
  method ListUsersScenario(stamp1: string, stamp2: string, now: int) returns (listed: seq<User>)
    requires stamp1 != stamp2
    ensures |listed| == 2
  {
    var store := new UserStore();
    var one := CreateUserInput("User One", "one" + "@" + "example" + "." + "com", "viewer");
    var two := CreateUserInput("User Two", "two" + "@" + "example" + "." + "com", "editor");
    CreatedExamplesValid(one, two);
    var r1 := store.CreateUser(one, stamp1, now);
    var r2 := store.CreateUser(two, stamp2, now);
    assert IdPrefix + stamp1 != IdPrefix + stamp2 by {
      assert (IdPrefix + stamp1)[|IdPrefix|..] == stamp1;
      assert (IdPrefix + stamp2)[|IdPrefix|..] == stamp2;
    }
    listed := store.ListUsers();
  }

  lemma ExampleNamesValid()
    ensures ValidateUserName("User One") == Accepted
    ensures ValidateUserName("User Two") == Accepted
  {
  }

  lemma CreatedExamplesValid(one: CreateUserInput, two: CreateUserInput)
    requires one == CreateUserInput("User One", "one" + "@" + "example" + "." + "com", "viewer")
    requires two == CreateUserInput("User Two", "two" + "@" + "example" + "." + "com", "editor")
    ensures FirstError(one).None? && FirstError(two).None?
  {
    EmailAcceptedExamples("one");
    EmailAcceptedExamples("two");
    ExampleNamesValid();
  }

  // ---------------------------------------------------------------- formatters

  /** No field that a formatter prints breaks a line. */
  predicate SingleLine(user: User, iso: int -> string) {
    '\n' !in user.id && '\n' !in user.name && '\n' !in user.email && '\n' !in user.role
    && '\n' !in iso(user.createdAt) && '\n' !in iso(user.updatedAt)
  }

  /** The lines of `formatUserForDisplay`; `iso` renders an instant as
      `toISOString` does. */
  function DisplayLines(user: User, iso: int -> string): seq<string> {
    [Repeat('=', 40), "User: " + user.name, Repeat('-', 40), "ID: " + user.id,
     "Email: " + user.email, "Role: " + user.role,
     "Created: " + iso(user.createdAt), "Updated: " + iso(user.updatedAt), Repeat('=', 40)]
  }

  function LogLines(user: User, iso: int -> string): seq<string> {
    ["[USER LOG]", Repeat('-', 30), "id=" + user.id, "name=" + user.name,
     "email=" + user.email, "role=" + user.role,
     "created=" + iso(user.createdAt), "updated=" + iso(user.updatedAt), Repeat('-', 30)]
  }

  /** A quoted `"key","value"` line of the export. */
  function ExportField(key: string, value: string): string {
    "\"" + key + "\",\"" + value + "\""
  }

  function ExportLines(user: User, iso: int -> string): seq<string> {
    ["--- USER EXPORT ---", ExportField("id", user.id), ExportField("name", user.name),
     ExportField("email", user.email), ExportField("role", user.role),
     ExportField("created", iso(user.createdAt)), ExportField("updated", iso(user.updatedAt)),
     "--- END EXPORT ---"]
  }

  /** `formatUserForDisplay`: the display lines joined by line breaks. The text
      names the user, their email and their role. */
  function FormatUserForDisplay(user: User, iso: int -> string): (r: string)
    ensures Contains(r, "User: " + user.name)
    ensures Contains(r, "Email: " + user.email)
    ensures Contains(r, "Role: " + user.role)
  {
    var lines := DisplayLines(user, iso);
    JoinContains(lines, "\n", 1);
    JoinContains(lines, "\n", 4);
    JoinContains(lines, "\n", 5);
    Join(lines, "\n")
  }

  /** `formatUserForLog`: the log lines joined by line breaks. The text
      carries `[USER LOG]` and names the user and their email. */
  function FormatUserForLog(user: User, iso: int -> string): (r: string)
    ensures Contains(r, "[USER LOG]")
    ensures Contains(r, "name=" + user.name)
    ensures Contains(r, "email=" + user.email)
  {
    var lines := LogLines(user, iso);
    JoinContains(lines, "\n", 0);
    JoinContains(lines, "\n", 3);
    JoinContains(lines, "\n", 4);
    Join(lines, "\n")
  }

  /** `formatUserForExport`: the export lines joined by line breaks. The text
      carries the export marker and the quoted name. */
  function FormatUserForExport(user: User, iso: int -> string): (r: string)
    ensures Contains(r, "--- USER EXPORT ---")
    ensures Contains(r, ExportField("name", user.name))
  {
    var lines := ExportLines(user, iso);
    JoinContains(lines, "\n", 0);
    JoinContains(lines, "\n", 2);
    Join(lines, "\n")
  }

  /** A prefix and a value without line breaks make a line without one. */
  lemma LineWithout(prefix: string, value: string)
    requires '\n' !in prefix && '\n' !in value
    ensures '\n' !in prefix + value
  {
  }

  lemma HeaderUnbroken()
    ensures '\n' !in "[USER LOG]"
  {
  }

  /** With single-line fields, the display text splits back into nine lines
      framed by 40 `=`, the user's name on the second. */
  lemma DisplayLinesBack(user: User, iso: int -> string)
    requires SingleLine(user, iso)
    ensures Split(FormatUserForDisplay(user, iso), '\n') == DisplayLines(user, iso)
    ensures var ls := DisplayLines(user, iso);
      |ls| == 9 && ls[0] == Repeat('=', 40) && ls[8] == Repeat('=', 40) && ls[1] == "User: " + user.name
  {
    var lines := DisplayLines(user, iso);
    assert '\n' !in Repeat('=', 40) && '\n' !in Repeat('-', 40);
    LineWithout("User: ", user.name);
    LineWithout("ID: ", user.id);
    LineWithout("Email: ", user.email);
    LineWithout("Role: ", user.role);
    LineWithout("Created: ", iso(user.createdAt));
    LineWithout("Updated: ", iso(user.updatedAt));
    SplitJoin(lines, '\n');
  }

  /** With single-line fields, the log text splits back into nine lines, the
      header first and the rule of 30 `-` second and last. */
  lemma LogLinesBack(user: User, iso: int -> string)
    requires SingleLine(user, iso)
    ensures Split(FormatUserForLog(user, iso), '\n') == LogLines(user, iso)
    ensures var ls := LogLines(user, iso);
      |ls| == 9 && ls[0] == "[USER LOG]" && ls[1] == Repeat('-', 30) && ls[8] == Repeat('-', 30)
  {
    var lines := LogLines(user, iso);
    assert '\n' !in Repeat('-', 30);
    HeaderUnbroken();
    LineWithout("id=", user.id);
    LineWithout("name=", user.name);
    LineWithout("email=", user.email);
    LineWithout("role=", user.role);
    LineWithout("created=", iso(user.createdAt));
    LineWithout("updated=", iso(user.updatedAt));
    SplitJoin(lines, '\n');
  }

  /** With single-line fields, the export text splits back into eight lines
      framed by its two markers. */
  lemma ExportLinesBack(user: User, iso: int -> string)
    requires SingleLine(user, iso)
    ensures Split(FormatUserForExport(user, iso), '\n') == ExportLines(user, iso)
    ensures var ls := ExportLines(user, iso);
      |ls| == 8 && ls[0] == "--- USER EXPORT ---" && ls[7] == "--- END EXPORT ---"
  {
    var lines := ExportLines(user, iso);
    assert forall k :: 0 <= k < |lines| ==> '\n' !in lines[k];
    SplitJoin(lines, '\n');
  }
}
