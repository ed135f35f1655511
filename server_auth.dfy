/** The server side of wallet login: the `web3Login` and `web3Register`
    request handlers (server/controllers/web3Auth.js).

    Each handler runs the same guard chain (all three body fields present,
    then the signature recovers the claimed address, compared without
    regard to letter case) and then looks the user up by the lower-cased
    address: login creates a record on first sight, registration refuses
    an address that already has one. The answer is an HTTP status with
    either an error message or the user record and a session token.

    Signature recovery (`ethers.verifyMessage`) is a parameter: any function
    from (message, signature) to a recovered address or a throw. The token
    (`jwt.sign`) is its payload; the signing key is not modelled. */
module ServerAuth {
  import opened Wrappers
  import opened Text

  /** A user document as the handlers create it. `id` stands for Mongo's `_id`. */
  datatype User = User(
    id: nat,
    firstName: string,
    lastName: string,
    username: string,
    walletAddress: string,
    password: string,
    city: string,
    role: string,
    authMethod: string)

  /** The payload of the session token: `{ _id, role, walletAddress }`. */
  datatype Token = Token(id: nat, role: string, walletAddress: string)

  /** What `ethers.verifyMessage(message, signature)` does: recover an
      address, or throw (malformed signature bytes, for one). */
  datatype Recovery = Recovered(address: string) | Throws

  type Verifier = (string, string) -> Recovery

  /** Request bodies. An absent field and an empty one are both `""`:
      the handlers test fields for falsiness, which does not tell them apart. */
  datatype LoginBody = LoginBody(walletAddress: string, message: string, signature: string)

  datatype RegisterBody = RegisterBody(
    walletAddress: string,
    message: string,
    signature: string,
    firstName: string,
    lastName: string,
    city: string)

  /** What reaches the client: an error passed to `next(createError(...))`,
      or a JSON body `{ result: { ...user, token }, message, success: true }`. */
  datatype Response =
    | Failure(status: nat, message: string)
    | Success(status: nat, message: string, user: User, token: Token)

  /** The user collection, keyed by lower-cased wallet address, with the
      next fresh document id. */
  datatype Store = Store(users: map<string, User>, nextId: nat)

  datatype Outcome = Outcome(response: Response, store: Store)

  const MissingFieldsMessage := "Wallet address, message, and signature are required"
  const InvalidSignatureMessage := "Invalid signature"
  const DuplicateMessage := "User with this wallet address already exists"
  const LoginFailedMessage := "Web3 authentication failed"
  const RegisterFailedMessage := "Web3 registration failed"
  const LoginSuccessMessage := "Web3 authentication successful"
  const RegisterSuccessMessage := "Web3 user registered successfully"

  /** Marks an account that cannot sign in with a password. */
  const PlaceholderPassword := "web3_auth"

  /** Every record sits under its own lower-case address, and ids are
      fresh and distinct. */
  ghost predicate StoreInvariant(s: Store) {
    && (forall k :: k in s.users ==>
          s.users[k].walletAddress == k && IsLowerCase(k) && s.users[k].id < s.nextId)
    && (forall k1, k2 :: k1 in s.users && k2 in s.users && k1 != k2 ==>
          s.users[k1].id != s.users[k2].id)
  }

  /** `!walletAddress || !message || !signature` */
  predicate MissingField(walletAddress: string, message: string, signature: string) {
    walletAddress == "" || message == "" || signature == ""
  }

  /** The signature proves the claimed address: recovery did not throw and
      recovered the same address up to letter case. */
  predicate ProofAccepted(walletAddress: string, message: string, signature: string, verify: Verifier) {
    && !MissingField(walletAddress, message, signature)
    && verify(message, signature).Recovered?
    && SameAddress(verify(message, signature).address, walletAddress)
  }

  /** The guard chain both handlers run before touching the store:
      `None` lets the request through, otherwise the error response.
      A throw from recovery lands in the handler's catch block, whose
      message differs between the two handlers. */
  function CheckProof(walletAddress: string, message: string, signature: string,
                      verify: Verifier, caughtMessage: string): (r: Option<Response>)
    ensures MissingField(walletAddress, message, signature) ==>
              r == Some(Failure(400, MissingFieldsMessage))
    ensures !MissingField(walletAddress, message, signature) && verify(message, signature).Throws? ==>
              r == Some(Failure(500, caughtMessage))
    ensures !MissingField(walletAddress, message, signature) && verify(message, signature).Recovered? &&
            !SameAddress(verify(message, signature).address, walletAddress) ==>
              r == Some(Failure(401, InvalidSignatureMessage))
    ensures r == None <==> ProofAccepted(walletAddress, message, signature, verify)
  {
    if MissingField(walletAddress, message, signature) then Some(Failure(400, MissingFieldsMessage))
    else match verify(message, signature)
      case Throws => Some(Failure(500, caughtMessage))
      case Recovered(recovered) =>
        if Lower(recovered) != Lower(walletAddress) then Some(Failure(401, InvalidSignatureMessage))
        else None
  }

  /** JavaScript's `value || fallback` on a string field. */
  function OrDefault(value: string, fallback: string): string {
    if value == "" then fallback else value
  }

  /** The record login creates on first sight of an address. */
  function NewLoginUser(id: nat, walletAddress: string): User {
    User(id, "Web3", "User", "web3_" + Take(walletAddress, 8), Lower(walletAddress),
         PlaceholderPassword, "Digital", "client", "web3")
  }

  /** The record registration creates; `now` is `Date.now()`. */
  function NewRegisteredUser(id: nat, body: RegisterBody, now: nat): User {
    User(id, OrDefault(body.firstName, "Web3"), OrDefault(body.lastName, "User"),
         "web3_" + Take(body.walletAddress, 8) + "_" + Decimal(now), Lower(body.walletAddress),
         PlaceholderPassword, OrDefault(body.city, "Digital"), "client", "web3")
  }

  /** `jwt.sign({ _id: user._id, role: user.role, walletAddress: walletAddress.toLowerCase() }, ...)` */
  function IssueToken(user: User, walletAddress: string): Token {
    Token(user.id, user.role, Lower(walletAddress))
  }

  /** The store after inserting `user` under its address with a fresh id. */
  function Insert(s: Store, user: User): Store {
    Store(s.users[user.walletAddress := user], s.nextId + 1)
  }

  /** What `web3Login` answers and what it leaves in the store. */
  function Login(s: Store, body: LoginBody, verify: Verifier): (o: Outcome)
    ensures o.response.status in {200, 400, 401, 500}
    ensures o.response.Failure? ==> o.store == s
    ensures MissingField(body.walletAddress, body.message, body.signature) ==>
              o == Outcome(Failure(400, MissingFieldsMessage), s)
    ensures !MissingField(body.walletAddress, body.message, body.signature) &&
            verify(body.message, body.signature).Throws? ==>
              o == Outcome(Failure(500, LoginFailedMessage), s)
    ensures !MissingField(body.walletAddress, body.message, body.signature) &&
            verify(body.message, body.signature).Recovered? &&
            !SameAddress(verify(body.message, body.signature).address, body.walletAddress) ==>
              o == Outcome(Failure(401, InvalidSignatureMessage), s)
    ensures o.response.Success? <==> ProofAccepted(body.walletAddress, body.message, body.signature, verify)
    ensures o.response.Success? ==>
              && o.response.status == 200
              && o.response.token == Token(o.response.user.id, o.response.user.role, Lower(body.walletAddress))
              && o.store.users.Keys == s.users.Keys + {Lower(body.walletAddress)}
              && o.store.users[Lower(body.walletAddress)] == o.response.user
    ensures o.response.Success? && Lower(body.walletAddress) in s.users ==>
              o.response.user == s.users[Lower(body.walletAddress)] && o.store == s
    ensures o.response.Success? && Lower(body.walletAddress) !in s.users ==>
              && o.response.user == NewLoginUser(s.nextId, body.walletAddress)
              && o.store == Insert(s, o.response.user)
    ensures StoreInvariant(s) ==> StoreInvariant(o.store)
  {
    match CheckProof(body.walletAddress, body.message, body.signature, verify, LoginFailedMessage)
    case Some(failure) => Outcome(failure, s)
    case None =>
      var key := Lower(body.walletAddress);
      var (user, s') :=
        if key in s.users then (s.users[key], s)
        else var u := NewLoginUser(s.nextId, body.walletAddress); (u, Insert(s, u));
      LowerIsLowerCase(body.walletAddress);
      Outcome(Success(200, LoginSuccessMessage, user, IssueToken(user, body.walletAddress)), s')
  }

  /** What `web3Register` answers and what it leaves in the store. */
  function Register(s: Store, body: RegisterBody, verify: Verifier, now: nat): (o: Outcome)
    ensures o.response.status in {201, 400, 401, 500}
    ensures o.response.Failure? ==> o.store == s
    ensures MissingField(body.walletAddress, body.message, body.signature) ==>
              o == Outcome(Failure(400, MissingFieldsMessage), s)
    ensures !MissingField(body.walletAddress, body.message, body.signature) &&
            verify(body.message, body.signature).Throws? ==>
              o == Outcome(Failure(500, RegisterFailedMessage), s)
    ensures !MissingField(body.walletAddress, body.message, body.signature) &&
            verify(body.message, body.signature).Recovered? &&
            !SameAddress(verify(body.message, body.signature).address, body.walletAddress) ==>
              o == Outcome(Failure(401, InvalidSignatureMessage), s)
    ensures ProofAccepted(body.walletAddress, body.message, body.signature, verify) &&
            Lower(body.walletAddress) in s.users ==>
              o == Outcome(Failure(400, DuplicateMessage), s)
    ensures o.response.Success? <==>
              ProofAccepted(body.walletAddress, body.message, body.signature, verify) &&
              Lower(body.walletAddress) !in s.users
    ensures o.response.Success? ==>
              && o.response.status == 201
              && o.response.user == NewRegisteredUser(s.nextId, body, now)
              && o.response.token == Token(s.nextId, "client", Lower(body.walletAddress))
              && o.store == Insert(s, o.response.user)
    ensures StoreInvariant(s) ==> StoreInvariant(o.store)
  {
    match CheckProof(body.walletAddress, body.message, body.signature, verify, RegisterFailedMessage)
    case Some(failure) => Outcome(failure, s)
    case None =>
      if Lower(body.walletAddress) in s.users then Outcome(Failure(400, DuplicateMessage), s)
      else
        var user := NewRegisteredUser(s.nextId, body, now);
        LowerIsLowerCase(body.walletAddress);
        Outcome(Success(201, RegisterSuccessMessage, user, IssueToken(user, body.walletAddress)), Insert(s, user))
  }

  /** First sight of an address at login creates exactly one record, with
      the fixed defaults: a `web3_` username from the address as typed, the
      lower-cased address, the placeholder password, role `client`. */
  lemma LoginCreatesDefaults(s: Store, body: LoginBody, verify: Verifier)
    requires ProofAccepted(body.walletAddress, body.message, body.signature, verify)
    requires Lower(body.walletAddress) !in s.users
    ensures var o := Login(s, body, verify);
      && o.response.Success?
      && |o.store.users| == |s.users| + 1
      && o.response.user.firstName == "Web3" && o.response.user.lastName == "User"
      && o.response.user.city == "Digital"
      && o.response.user.username == "web3_" + body.walletAddress[..Min(8, |body.walletAddress|)]
      && o.response.user.walletAddress == Lower(body.walletAddress)
      && IsLowerCase(o.response.user.walletAddress)
      && o.response.user.password == "web3_auth"
      && o.response.user.role == "client" && o.response.user.authMethod == "web3"
  {
    LowerIsLowerCase(body.walletAddress);
  }

  /** Registration of a new address creates one record; an empty name or
      city field falls back to `Web3`, `User` or `Digital`, and the
      username carries the registration time. */
  lemma RegisterCreatesDefaults(s: Store, body: RegisterBody, verify: Verifier, now: nat)
    requires ProofAccepted(body.walletAddress, body.message, body.signature, verify)
    requires Lower(body.walletAddress) !in s.users
    ensures var o := Register(s, body, verify, now);
      && o.response.Success? && o.response.status == 201
      && |o.store.users| == |s.users| + 1
      && o.response.user.firstName == (if body.firstName == "" then "Web3" else body.firstName)
      && o.response.user.lastName == (if body.lastName == "" then "User" else body.lastName)
      && o.response.user.city == (if body.city == "" then "Digital" else body.city)
      && o.response.user.username ==
           "web3_" + body.walletAddress[..Min(8, |body.walletAddress|)] + "_" + Decimal(now)
      && o.response.user.walletAddress == Lower(body.walletAddress)
      && o.response.user.password == "web3_auth"
      && o.response.user.role == "client" && o.response.user.authMethod == "web3"
  {
  }

  /** Login is idempotent on identity: two successful logins for the same
      address, in any letter case and with any two signatures, return the
      same user, and only the first can add a record. */
  lemma LoginIdempotent(s: Store, first: LoginBody, second: LoginBody, verify1: Verifier, verify2: Verifier)
    requires SameAddress(first.walletAddress, second.walletAddress)
    requires Login(s, first, verify1).response.Success?
    requires Login(Login(s, first, verify1).store, second, verify2).response.Success?
    ensures Login(Login(s, first, verify1).store, second, verify2).response.user ==
            Login(s, first, verify1).response.user
    ensures Login(Login(s, first, verify1).store, second, verify2).store == Login(s, first, verify1).store
    ensures |Login(s, first, verify1).store.users| <= |s.users| + 1
  {
    var s1 := Login(s, first, verify1).store;
    assert s1.users.Keys == s.users.Keys + {Lower(first.walletAddress)};
  }

  /** Registration refuses an address that was registered before, in any
      letter case, and leaves the store as it was. */
  lemma RegisterRejectsSecond(s: Store, first: RegisterBody, second: RegisterBody,
                              verify1: Verifier, verify2: Verifier, now1: nat, now2: nat)
    requires SameAddress(first.walletAddress, second.walletAddress)
    requires Register(s, first, verify1, now1).response.Success?
    requires ProofAccepted(second.walletAddress, second.message, second.signature, verify2)
    ensures Register(Register(s, first, verify1, now1).store, second, verify2, now2) ==
            Outcome(Failure(400, DuplicateMessage), Register(s, first, verify1, now1).store)
  {
  }

  /** A registered wallet logs in as the registered user, and login
      creates nothing. */
  lemma LoginFindsRegistered(s: Store, reg: RegisterBody, body: LoginBody,
                             verify1: Verifier, verify2: Verifier, now: nat)
    requires SameAddress(reg.walletAddress, body.walletAddress)
    requires Register(s, reg, verify1, now).response.Success?
    requires ProofAccepted(body.walletAddress, body.message, body.signature, verify2)
    ensures Login(Register(s, reg, verify1, now).store, body, verify2).response.user ==
            Register(s, reg, verify1, now).response.user
    ensures Login(Register(s, reg, verify1, now).store, body, verify2).store ==
            Register(s, reg, verify1, now).store
  {
  }

  /** The login username keeps only the first eight characters of the
      address (`0x` and six hex digits), so two different wallets can be
      given the same username. Nothing in the handler prevents it. */
  lemma LoginUsernamesCanCollide()
    ensures NewLoginUser(0, "0x12345600").username == NewLoginUser(1, "0x123456ff").username
    ensures NewLoginUser(0, "0x12345600").walletAddress != NewLoginUser(1, "0x123456ff").walletAddress
  {
    var a, b := "0x12345600", "0x123456ff";
    assert Take(a, 8) == a[..8] == b[..8] == Take(b, 8);
    assert Lower(a)[9] == LowerChar(a[9]) == '0';
    assert Lower(b)[9] == LowerChar(b[9]) == 'f';
  }

  /** The user collection as the handlers see it: `User.findOne` and
      `User.create` over documents keyed by lower-cased wallet address. */
  class UserCollection {
    var users: map<string, User>
    var nextId: nat

    function Value(): Store
      reads this
    {
      Store(users, nextId)
    }

    ghost predicate Valid()
      reads this
    {
      StoreInvariant(Value())
    }

    constructor ()
      ensures Valid() && users == map[] && nextId == 0
    {
      users := map[];
      nextId := 0;
    }

    /** `User.findOne({ walletAddress: key })` */
    method FindOne(key: string) returns (found: Option<User>)
      ensures found.Some? <==> key in users
      ensures found.Some? ==> found.value == users[key] && found.value.walletAddress == key
      requires Valid()
    {
      found := if key in users then Some(users[key]) else None;
    }

    /** `User.create(draft)`: stores the draft under a fresh id. The
        handlers only call it after `findOne` found nothing. */
    method Create(draft: User) returns (created: User)
      requires Valid()
      requires IsLowerCase(draft.walletAddress) && draft.walletAddress !in users
      modifies this
      ensures Valid()
      ensures created == draft.(id := old(nextId))
      ensures Value() == Insert(old(Value()), created)
    {
      created := draft.(id := nextId);
      users := users[draft.walletAddress := created];
      nextId := nextId + 1;
    }

    /** `web3Login` */
    method Web3Login(body: LoginBody, verify: Verifier) returns (response: Response)
      requires Valid()
      modifies this
      ensures Valid()
      ensures Outcome(response, Value()) == Login(old(Value()), body, verify)
    {
      if MissingField(body.walletAddress, body.message, body.signature) {
        return Failure(400, MissingFieldsMessage);
      }
      var recovered := verify(body.message, body.signature);
      if recovered.Throws? {
        return Failure(500, LoginFailedMessage);
      }
      if Lower(recovered.address) != Lower(body.walletAddress) {
        return Failure(401, InvalidSignatureMessage);
      }
      var user := FindOne(Lower(body.walletAddress));
      if user.None? {
        LowerIsLowerCase(body.walletAddress);
        var created := Create(NewLoginUser(0, body.walletAddress));
        user := Some(created);
      }
      response := Success(200, LoginSuccessMessage, user.value, IssueToken(user.value, body.walletAddress));
    }

    /** `web3Register`; `now` is the value of `Date.now()`. */
    method Web3Register(body: RegisterBody, verify: Verifier, now: nat) returns (response: Response)
      requires Valid()
      modifies this
      ensures Valid()
      ensures Outcome(response, Value()) == Register(old(Value()), body, verify, now)
    {
      if MissingField(body.walletAddress, body.message, body.signature) {
        return Failure(400, MissingFieldsMessage);
      }
      var recovered := verify(body.message, body.signature);
      if recovered.Throws? {
        return Failure(500, RegisterFailedMessage);
      }
      if Lower(recovered.address) != Lower(body.walletAddress) {
        return Failure(401, InvalidSignatureMessage);
      }
      var existing := FindOne(Lower(body.walletAddress));
      if existing.Some? {
        return Failure(400, DuplicateMessage);
      }
      LowerIsLowerCase(body.walletAddress);
      var created := Create(NewRegisteredUser(0, body, now));
      response := Success(201, RegisterSuccessMessage, created, IssueToken(created, body.walletAddress));
    }
  }
}
