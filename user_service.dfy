/** `UserService`: accounts, their field rules, login and logout. */
module UserService {
  import opened Common
  import opened Dtos
  import opened Repositories
  import UserBuilder

  predicate IsAsciiLetter(c: char) {
    ('a' <= c <= 'z') || ('A' <= c <= 'Z')
  }

  predicate IsAsciiDigit(c: char) {
    '0' <= c <= '9'
  }

  /** The class `[a-zA-Z0-9._%+-]` of the part before the `@`. */
  predicate IsLocalChar(c: char) {
    IsAsciiLetter(c) || IsAsciiDigit(c) || c == '.' || c == '_' || c == '%' || c == '+' || c == '-'
  }

  /** The class `[a-zA-Z0-9.-]` of the domain. */
  predicate IsDomainChar(c: char) {
    IsAsciiLetter(c) || IsAsciiDigit(c) || c == '.' || c == '-'
  }

  /** A scan of `s`, one character at a time, against a character class. */
  function AllChars(s: string, cls: char -> bool): (b: bool)
    ensures b <==> forall k :: 0 <= k < |s| ==> cls(s[k])
  {
    if s == [] then true else cls(s[0]) && AllChars(s[1..], cls)
  }

  /** `isValidName`: present, matching `[a-zA-Z]+`, at most 30 characters. */
  function IsValidName(name: Option<string>): (b: bool)
    ensures b <==> (name.Some? && 1 <= |name.value| <= 30
                    && forall k :: 0 <= k < |name.value| ==> IsAsciiLetter(name.value[k]))
  {
    name.Some? && |name.value| >= 1 && AllChars(name.value, IsAsciiLetter) && |name.value| <= 30
  }

  /** `isValidUsername`: present and at most 30 characters; the empty string passes. */
  predicate IsValidUsername(username: Option<string>) {
    username.Some? && |username.value| <= 30
  }

  /** `isValidPassword`: present and at most 30 characters; the empty string passes. */
  predicate IsValidPassword(password: Option<string>) {
    password.Some? && |password.value| <= 30
  }

  /** Username and password rules: present and at most 30 characters; the empty string
      passes, and nothing checks the characters. */
  lemma CredentialRules(s: string)
    ensures IsValidUsername(Some(s)) <==> |s| <= 30
    ensures IsValidPassword(Some(s)) <==> |s| <= 30
    ensures !IsValidUsername(None) && !IsValidPassword(None)
    ensures IsValidUsername(Some("")) && IsValidPassword(Some(""))
    ensures |s| == 31 ==> !IsValidUsername(Some(s)) && !IsValidPassword(Some(s))
  {
  }

  /** `s` matches `^\+40\d{9}$` when the digits start at index 3. */
  function IsValidPhoneNumber(phoneNumber: Option<string>): (b: bool)
    ensures b <==> (phoneNumber.Some? && |phoneNumber.value| == 12 && phoneNumber.value[..3] == "+40"
                    && forall k :: 3 <= k < 12 ==> IsAsciiDigit(phoneNumber.value[k]))
  {
    if phoneNumber.None? || |phoneNumber.value| != 12 then false
    else
      var s := phoneNumber.value;
      assert forall k :: 3 <= k < 12 ==> s[3..][k - 3] == s[k];
      s[..3] == "+40" && AllChars(s[3..], IsAsciiDigit)
  }

  /** A valid phone number is "+40" followed by nine digits, and every such string is valid. */
  lemma PhoneNumberShape(s: string)
    ensures IsValidPhoneNumber(Some(s)) <==>
      exists digits :: |digits| == 9 && AllChars(digits, IsAsciiDigit) && s == "+40" + digits
  {
    if IsValidPhoneNumber(Some(s)) {
      var digits := s[3..];
      assert AllChars(digits, IsAsciiDigit) by {
        assert forall k :: 0 <= k < 9 ==> digits[k] == s[k + 3];
      }
      assert s == "+40" + digits;
    }
    if exists digits :: |digits| == 9 && AllChars(digits, IsAsciiDigit) && s == "+40" + digits {
      var digits :| |digits| == 9 && AllChars(digits, IsAsciiDigit) && s == "+40" + digits;
      assert s[..3] == "+40";
      assert forall k :: 3 <= k < 12 ==> s[k] == digits[k - 3];
    }
  }

  /** `s` read as local part `s[..at]`, the `@`, domain `s[at+1..dot]`, the `.` and top-level
      domain `s[dot+1..]`, each part over its class and the top-level domain at least two letters. */
  predicate EmailParts(s: string, at: int, dot: int) {
    1 <= at && at + 2 <= dot && dot + 3 <= |s|
    && AllChars(s[..at], IsLocalChar) && s[at] == '@'
    && AllChars(s[at + 1..dot], IsDomainChar) && s[dot] == '.'
    && AllChars(s[dot + 1..], IsAsciiLetter)
  }

  /** The language of `^[a-zA-Z0-9._%+-]+@[a-zA-Z0-9.-]+\.[a-zA-Z]{2,}$`: some split into parts. */
  ghost predicate MatchesEmailPattern(s: string) {
    exists at, dot :: EmailParts(s, at, dot)
  }

  /** The index of the first `c` in `s`, or `|s|` when there is none. */
  function FirstIndex(s: string, c: char): (k: nat)
    ensures k <= |s| && (k < |s| ==> s[k] == c)
    ensures forall m :: 0 <= m < k ==> s[m] != c
  {
    if s == [] then 0 else if s[0] == c then 0 else 1 + FirstIndex(s[1..], c)
  }

  /** The index of the last `c` in `s`, or -1 when there is none. */
  function LastIndex(s: string, c: char): (k: int)
    ensures -1 <= k < |s| && (k >= 0 ==> s[k] == c)
    ensures forall m :: k < m < |s| ==> s[m] != c
  {
    if s == [] then -1 else if s[|s| - 1] == c then |s| - 1 else LastIndex(s[..|s| - 1], c)
  }

  /** `isValidEmail`: present, and the split at the first `@` and the last `.` has the
      right parts. Neither class before the top-level domain holds an `@`, and the
      top-level domain holds no `.`, so there is no other split to try. */
  function IsValidEmail(email: Option<string>): (b: bool)
    ensures b <==> email.Some? && MatchesEmailPattern(email.value)
  {
    if email.None? then false
    else
      var s := email.value;
      EmailScanMatchesPattern(s);
      EmailParts(s, FirstIndex(s, '@'), LastIndex(s, '.'))
  }

  /** Any split the pattern admits is the one at the first `@` and the last `.`. */
  lemma EmailScanMatchesPattern(s: string)
    ensures EmailParts(s, FirstIndex(s, '@'), LastIndex(s, '.')) <==> MatchesEmailPattern(s)
  {
    if MatchesEmailPattern(s) {
      var at, dot :| EmailParts(s, at, dot);
      var first := FirstIndex(s, '@');
      var last := LastIndex(s, '.');
      assert forall m :: 0 <= m < at ==> s[m] == s[..at][m];
      assert first == at;
      assert forall m :: dot < m < |s| ==> s[m] == s[dot + 1..][m - dot - 1];
      assert last == dot;
    }
  }

  /** The first field rule of `createUser` and `updateUser` the request breaks, if any:
      names, then username and password, then email, then phone number. The messages
      speak of 20 characters; the rules allow 30. */
  function UserValidationError(dto: UserDto): (e: Option<Error>)
    ensures e.None? <==> (IsValidName(dto.firstName) && IsValidName(dto.lastName)
                          && IsValidUsername(dto.username) && IsValidPassword(dto.password)
                          && IsValidEmail(dto.email) && IsValidPhoneNumber(dto.phoneNumber))
    ensures !(IsValidName(dto.firstName) && IsValidName(dto.lastName)) ==>
      e == Some(IllegalArgument("First name and last name must be alphanumeric and less than 20 characters long."))
    ensures (IsValidName(dto.firstName) && IsValidName(dto.lastName)
             && !(IsValidUsername(dto.username) && IsValidPassword(dto.password))) ==>
      e == Some(IllegalArgument("Username and password must be alphanumeric and less than 20 characters long."))
    ensures (IsValidName(dto.firstName) && IsValidName(dto.lastName)
             && IsValidUsername(dto.username) && IsValidPassword(dto.password) && !IsValidEmail(dto.email)) ==>
      e == Some(IllegalArgument("Invalid email format"))
    ensures (IsValidName(dto.firstName) && IsValidName(dto.lastName)
             && IsValidUsername(dto.username) && IsValidPassword(dto.password) && IsValidEmail(dto.email)
             && !IsValidPhoneNumber(dto.phoneNumber)) ==>
      e == Some(IllegalArgument("Invalid phone number format. Phone number must start with '+40' followed by 9 digits."))
    ensures e.Some? ==> e.value.IllegalArgument?
  {
    if !IsValidName(dto.firstName) || !IsValidName(dto.lastName) then
      Some(IllegalArgument("First name and last name must be alphanumeric and less than 20 characters long."))
    else if !IsValidUsername(dto.username) || !IsValidPassword(dto.password) then
      Some(IllegalArgument("Username and password must be alphanumeric and less than 20 characters long."))
    else if !IsValidEmail(dto.email) then
      Some(IllegalArgument("Invalid email format"))
    else if !IsValidPhoneNumber(dto.phoneNumber) then
      Some(IllegalArgument("Invalid phone number format. Phone number must start with '+40' followed by 9 digits."))
    else None
  }

  /** `createUser`: the field rules in order; the user is stored under the fresh id and
      the DTO of the saved entity is returned, which is the request with that id. */
  method CreateUser(db: Database, dto: UserDto, freshId: Uuid) returns (r: Result<UserDto>)
    requires freshId !in db.users
    modifies db`users
    ensures r.Err? <==> UserValidationError(dto).Some?
    ensures r.Err? ==> r.error == UserValidationError(dto).value && db.users == old(db.users)
    ensures r.Ok? ==> r.value == dto.(id := freshId) && db.users == old(db.users)[freshId := UserRowOf(dto)]
  {
    var error := UserValidationError(dto);
    if error.Some? {
      return Err(error.value);
    }
    var user := UserBuilder.ToEntity(dto.(id := freshId));
    db.users := db.users[freshId := UserRowOf(dto)];
    UserBuilder.DtoRoundTrip(dto.(id := freshId));
    r := Ok(UserBuilder.ToUserDto(user));
  }

  /** `updateUser`: the user must exist; then the field rules; then the seven profile and
      role fields are overwritten. */
  method UpdateUser(db: Database, id: Uuid, dto: UserDto) returns (r: Result<UserDto>)
    modifies db`users
    ensures id !in old(db.users) ==> r == Err(UserNotFound)
    ensures id in old(db.users) ==> (r.Err? <==> UserValidationError(dto).Some?)
    ensures id in old(db.users) && r.Err? ==> r.error == UserValidationError(dto).value
    ensures r.Err? ==> db.users == old(db.users)
    ensures r.Ok? ==> db.users == old(db.users)[id := UserRowOf(dto)] && r.value == UserView(id, UserRowOf(dto))
  {
    if id !in db.users {
      return Err(UserNotFound);
    }
    var error := UserValidationError(dto);
    if error.Some? {
      return Err(error.value);
    }
    var existing := db.users[id];
    existing := existing.(firstName := dto.firstName, lastName := dto.lastName, username := dto.username,
      password := dto.password, email := dto.email, phoneNumber := dto.phoneNumber, userRole := dto.userRole);
    db.users := db.users[id := existing];
    r := Ok(UserView(id, existing));
  }

  /** The properties of the user's contracts. */
  function PropertiesRentedBy(contracts: map<Uuid, ContractRow>, userId: Uuid): (pids: set<Uuid>)
    ensures forall pid :: pid in pids <==>
      exists cid :: cid in contracts && contracts[cid].userId == userId && contracts[cid].propertyId == pid
  {
    set cid | cid in contracts && contracts[cid].userId == userId :: contracts[cid].propertyId
  }

  /** Under the rental link the properties of a user's contracts are rented, and no
      property is rented by two different users. */
  lemma RentedByAreRented(properties: map<Uuid, PropertyRow>, contracts: map<Uuid, ContractRow>, u: Uuid, v: Uuid)
    requires RentalConsistent(properties, contracts)
    ensures forall pid :: pid in PropertiesRentedBy(contracts, u) && pid in properties ==> properties[pid].rented
    ensures u != v ==> PropertiesRentedBy(contracts, u) !! PropertiesRentedBy(contracts, v)
  {
    forall pid | pid in PropertiesRentedBy(contracts, u) && pid in properties
      ensures properties[pid].rented
    {
      var cid :| cid in contracts && contracts[cid].userId == u && contracts[cid].propertyId == pid;
      assert HasContract(contracts, pid);
    }
    if u != v {
      forall pid | pid in PropertiesRentedBy(contracts, u)
        ensures pid !in PropertiesRentedBy(contracts, v)
      {
        var c1 :| c1 in contracts && contracts[c1].userId == u && contracts[c1].propertyId == pid;
      }
    }
  }

  /** The property table with the rented flag cleared on `pids`: nothing else changes. */
  function ClearRented(properties: map<Uuid, PropertyRow>, pids: set<Uuid>): (ps: map<Uuid, PropertyRow>)
    ensures ps.Keys == properties.Keys
    ensures forall pid :: pid in ps ==> ps[pid].rented == (properties[pid].rented && pid !in pids)
    ensures forall pid :: pid in ps ==> ps[pid].(rented := properties[pid].rented) == properties[pid]
  {
    map pid | pid in properties :: if pid in pids then properties[pid].(rented := false) else properties[pid]
  }

  lemma ClearRentedStep(properties: map<Uuid, PropertyRow>, cleared: map<Uuid, PropertyRow>, pids: set<Uuid>, pid: Uuid)
    requires cleared == ClearRented(properties, pids)
    ensures pid in cleared ==>
      cleared[pid := cleared[pid].(rented := false)] == ClearRented(properties, pids + {pid})
    ensures pid !in cleared ==> cleared == ClearRented(properties, pids + {pid})
  {
  }

  /** `deleteUser`: remove the user, then walk over the user's contracts and clear the
      rented flag of each contract's property. The user's mapping is not part of this
      model, so the contract table is left as it is: whether the store drops the user's
      contracts with the user is not modelled. */
  method DeleteUser(db: Database, id: Uuid) returns (r: Result<()>)
    modifies db`users, db`properties
    ensures r.Ok? <==> id in old(db.users)
    ensures r.Err? ==> r.error == UserNotFound && db.users == old(db.users) && db.properties == old(db.properties)
    ensures r.Ok? ==> (db.users == old(db.users) - {id}
                       && db.properties == ClearRented(old(db.properties), PropertiesRentedBy(db.contracts, id)))
  {
    if id !in db.users {
      return Err(UserNotFound);
    }
    db.users := db.users - {id};
    var userContracts := ContractsOfUser(db.contracts, id);
    var todo := userContracts;
    ghost var cleared: set<Uuid> := {};
    while todo != {}
      invariant todo <= userContracts
      invariant db.users == old(db.users) - {id}
      invariant db.properties == ClearRented(old(db.properties), cleared)
      invariant forall cid :: cid in userContracts - todo ==> db.contracts[cid].propertyId in cleared
      invariant cleared <= PropertiesRentedBy(db.contracts, id)
      decreases |todo|
    {
      var cid :| cid in todo;
      var pid := db.contracts[cid].propertyId;
      ClearRentedStep(old(db.properties), db.properties, cleared, pid);
      if pid in db.properties {
        db.properties := db.properties[pid := db.properties[pid].(rented := false)];
      }
      cleared := cleared + {pid};
      todo := todo - {cid};
    }
    assert cleared == PropertiesRentedBy(db.contracts, id);
    r := Ok(());
  }

  /** In a store that kept a deleted user's contracts, the delete would break the rental
      link: the property is released while the contract stays. This is a consequence of the
      model leaving the contract table alone, not a shown behaviour of `deleteUser`. */
  lemma DeleteUserBreaksRentalLink(
    properties: map<Uuid, PropertyRow>, contracts: map<Uuid, ContractRow>, userId: Uuid, cid: Uuid)
    requires cid in contracts && contracts[cid].userId == userId && contracts[cid].propertyId in properties
    ensures !RentalConsistent(ClearRented(properties, PropertiesRentedBy(contracts, userId)), contracts)
  {
    var pid := contracts[cid].propertyId;
    var ps := ClearRented(properties, PropertiesRentedBy(contracts, userId));
    assert pid in PropertiesRentedBy(contracts, userId);
    assert !ps[pid].rented && HasContract(contracts, pid);
  }

  /** When the store drops the user's contracts together with the user, the un-renting
      loop of `deleteUser` keeps the rental link. */
  lemma CascadedUserDeleteKeepsRentalLink(
    properties: map<Uuid, PropertyRow>, contracts: map<Uuid, ContractRow>, userId: Uuid)
    requires RentalConsistent(properties, contracts)
    ensures RentalConsistent(ClearRented(properties, PropertiesRentedBy(contracts, userId)),
                             map c | c in contracts && contracts[c].userId != userId :: contracts[c])
  {
    var ps := ClearRented(properties, PropertiesRentedBy(contracts, userId));
    var cs := map c | c in contracts && contracts[c].userId != userId :: contracts[c];
    forall pid | pid in ps
      ensures ps[pid].rented <==> HasContract(cs, pid)
    {
      if pid in PropertiesRentedBy(contracts, userId) {
        var c1 :| c1 in contracts && contracts[c1].userId == userId && contracts[c1].propertyId == pid;
      } else if HasContract(contracts, pid) {
        var cid :| cid in contracts && contracts[cid].propertyId == pid;
        assert cid in cs;
      }
    }
  }

  /** `login`: find the user by username; an unknown name, several matches or a wrong password
      are refused and leave the session alone; otherwise the user's DTO goes into the session. */
  method Login(db: Database, session: HttpSession, username: string, password: string) returns (r: Result<UserDto>)
    modifies session
    ensures UsersNamed(db.users, username) == {} ==> r == Err(UserNotFound)
    ensures (exists a, b :: a in UsersNamed(db.users, username) && b in UsersNamed(db.users, username) && a != b)
            ==> r == Err(IncorrectResultSize)
    ensures r.Ok? <==> exists uid :: UsersNamed(db.users, username) == {uid} && db.users[uid].password == Some(password)
    ensures r.Ok? ==> (r.value.id in db.users && db.users[r.value.id].username == Some(username)
                       && db.users[r.value.id].password == Some(password)
                       && r.value == UserView(r.value.id, db.users[r.value.id]))
    ensures forall uid :: (UsersNamed(db.users, username) == {uid} && db.users[uid].password.Some?
                           && db.users[uid].password != Some(password))
                          ==> r == Err(IllegalArgument("Incorrect password or username"))
    ensures r.Ok? ==> session.loggedUser == Some(r.value)
    ensures r.Err? ==> session.loggedUser == old(session.loggedUser)
  {
    var found := UsersNamed(db.users, username);
    if found == {} {
      return Err(UserNotFound);
    }
    var uid :| uid in found;
    if found != {uid} {
      return Err(IncorrectResultSize);
    }
    var user := db.users[uid];
    if user.password.None? {
      return Err(NullReference);
    }
    if user.password.value != password {
      return Err(IllegalArgument("Incorrect password or username"));
    }
    var userDto := UserView(uid, user);
    session.loggedUser := Some(userDto);
    r := Ok(userDto);
  }

  /** `logout`. */
  method Logout(session: HttpSession)
    modifies session
    ensures session.loggedUser == None
  {
    session.loggedUser := None;
  }

  /** `getLoggedInUser`. */
  function GetLoggedInUser(session: HttpSession): Option<UserDto>
    reads session
  {
    session.loggedUser
  }

  /** Logging in and then out: in between the session holds the user, afterwards no one. */
  method LoginThenLogout(db: Database, session: HttpSession, username: string, password: string)
    returns (during: Option<UserDto>, after: Option<UserDto>)
    modifies session
    ensures forall uid :: (UsersNamed(db.users, username) == {uid} && db.users[uid].password == Some(password))
                          ==> during == Some(UserView(uid, db.users[uid]))
    ensures after == None
  {
    var r := Login(db, session, username, password);
    during := GetLoggedInUser(session);
    Logout(session);
    after := GetLoggedInUser(session);
  }
}
