/** Guest registration: a nickname of at most 50 characters that nobody holds
    yet, and a generated username `guest_` + the first 8 hex digits of a
    random uuid.  The random uuid is a parameter. */
module UserSerializers {
  import opened Wrappers

  const NicknameMaxLength: nat := 50
  const GuestPrefix: string := "guest_"

  /** The submitted fields. */
  datatype GuestRegistration = GuestRegistration(nickname: string, isVisitor: Option<bool>)

  datatype ValidatedGuest = ValidatedGuest(nickname: string, isVisitor: bool)

  datatype RegistrationError = NicknameTooLong | NicknameTaken | UsernameTaken

  /** The columns of a user row that registration sets. */
  datatype UserRow = UserRow(username: string, nickname: string)

  predicate IsHexDigit(c: char) {
    '0' <= c <= '9' || 'a' <= c <= 'f'
  }

  function Nicknames(users: seq<UserRow>): set<string> {
    set u | u in users :: u.nickname
  }

  function Usernames(users: seq<UserRow>): set<string> {
    set u | u in users :: u.username
  }

  /** The field's `max_length`, then `validate_nickname`; `is_visitor` defaults to false. */
  function Validate(users: seq<UserRow>, req: GuestRegistration): (r: Result<ValidatedGuest, RegistrationError>)
    ensures r.Success? <==> |req.nickname| <= NicknameMaxLength && req.nickname !in Nicknames(users)
    ensures r.Success? ==> r.value.nickname == req.nickname && r.value.isVisitor == req.isVisitor.GetOr(false)
    ensures |req.nickname| > NicknameMaxLength ==> r == Failure(NicknameTooLong)
    ensures |req.nickname| <= NicknameMaxLength && req.nickname in Nicknames(users) ==> r == Failure(NicknameTaken)
  {
    if |req.nickname| > NicknameMaxLength then Failure(NicknameTooLong)
    else if req.nickname in Nicknames(users) then Failure(NicknameTaken)
    else Success(ValidatedGuest(req.nickname, req.isVisitor.GetOr(false)))
  }

  /** `f"guest_{uuid.uuid4().hex[:8]}"`, given the uuid's 32 hex digits. */
  function GuestUsername(uuidHex: string): (u: string)
    requires |uuidHex| == 32 && forall i :: 0 <= i < |uuidHex| ==> IsHexDigit(uuidHex[i])
    ensures |u| == |GuestPrefix| + 8 == 14
    ensures u[..|GuestPrefix|] == GuestPrefix
    ensures forall i :: |GuestPrefix| <= i < |u| ==> IsHexDigit(u[i])
  {
    GuestPrefix + uuidHex[..8]
  }

  /** Once a nickname is held, registering it again is refused. */
  lemma HeldNicknameIsRefused(users: seq<UserRow>, row: UserRow, req: GuestRegistration)
    requires req.nickname == row.nickname
    ensures Validate(users + [row], req).Failure?
  {
    assert row in users + [row];
  }

  class UserTable {
    var users: seq<UserRow>

    constructor (users: seq<UserRow>)
      ensures this.users == users
    {
      this.users := users;
    }

    /** `GuestRegistrationSerializer.create`: insert a row with the generated
        username and exactly the validated nickname; `is_visitor` is not stored.
        A username already in the table makes the insert fail. */
    method Create(data: ValidatedGuest, uuidHex: string) returns (r: Result<UserRow, RegistrationError>)
      requires |uuidHex| == 32 && forall i :: 0 <= i < |uuidHex| ==> IsHexDigit(uuidHex[i])
      modifies this
      ensures GuestUsername(uuidHex) in Usernames(old(users)) ==> r == Failure(UsernameTaken) && users == old(users)
      ensures GuestUsername(uuidHex) !in Usernames(old(users)) ==>
                && r == Success(UserRow(GuestUsername(uuidHex), data.nickname))
                && users == old(users) + [r.value]
    {
      var username := GuestUsername(uuidHex);
      if username in Usernames(users) {
        return Failure(UsernameTaken);
      }
      var row := UserRow(username, data.nickname);
      users := users + [row];
      return Success(row);
    }

    /** Validation followed by `create`; a refused registration inserts nothing,
        and after a successful one the same nickname is refused. */
    method Register(req: GuestRegistration, uuidHex: string) returns (r: Result<UserRow, RegistrationError>)
      requires |uuidHex| == 32 && forall i :: 0 <= i < |uuidHex| ==> IsHexDigit(uuidHex[i])
      modifies this
      ensures Validate(old(users), req).Failure? ==> r == Failure(Validate(old(users), req).error) && users == old(users)
      ensures r.Failure? ==> users == old(users)
      ensures r.Success? ==>
                && Validate(old(users), req).Success?
                && r.value == UserRow(GuestUsername(uuidHex), req.nickname)
                && users == old(users) + [r.value]
                && Validate(users, req) == Failure(NicknameTaken)
    {
      var validated := Validate(users, req);
      if validated.Failure? {
        return Failure(validated.error);
      }
      r := Create(validated.value, uuidHex);
      if r.Success? {
        HeldNicknameIsRefused(old(users), r.value, req);
      }
    }
  }
}
