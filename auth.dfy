/**
 * The balance store and the sign-in bookkeeping of lib/auth.ts.
 *
 * The browser's localStorage is a string-keyed map; the model keeps only the
 * `balance_<user id>` entries, and holds their values as integers (the source
 * writes `newBalance.toString()` and reads it back with `parseFloat`).
 * The authentication provider's answers to sign-up and sign-in are inputs.
 */
module Auth {
  import opened Wrappers

  /** Balance reported for a user that has no stored balance, and granted at sign-up. */
  const InitialBalance: int := 1000

  const KeyPrefix: string := "balance_"

  /** The localStorage key under which a user's balance is kept. */
  function BalanceKey(userId: string): (key: string)
    ensures |key| == |KeyPrefix| + |userId|
    ensures key[..|KeyPrefix|] == KeyPrefix && key[|KeyPrefix|..] == userId
  {
    KeyPrefix + userId
  }

  /** Distinct users never share a balance entry. */
  lemma BalanceKeyInjective(u: string, v: string)
    ensures BalanceKey(u) == BalanceKey(v) <==> u == v
  {
    if BalanceKey(u) == BalanceKey(v) {
      calc {
        u;
        BalanceKey(u)[|KeyPrefix|..];
        BalanceKey(v)[|KeyPrefix|..];
        v;
      }
    }
  }

  /** `getUserBalance` read against a given storage content. */
  function BalanceIn(storage: map<string, int>, userId: string): (b: int)
  {
    if BalanceKey(userId) in storage then storage[BalanceKey(userId)] else InitialBalance
  }

  /** A write to one user's key is read back by that user and by no one else. */
  lemma WriteThenRead(storage: map<string, int>, u: string, b: int, v: string)
    ensures BalanceIn(storage[BalanceKey(u) := b], v) == if v == u then b else BalanceIn(storage, v)
  {
    BalanceKeyInjective(u, v);
  }

  /** A user of the application. */
  datatype User = User(id: string, email: string)

  /** The `AuthResponse` returned to the login form. */
  datatype AuthResponse = AuthResponse(success: bool, message: string, user: Option<User>)

  /** The user record returned by the authentication provider. */
  datatype ProviderUser = ProviderUser(id: string, email: string)

  /** The provider's answer to `signUp` or `signInWithPassword`. */
  datatype ProviderAnswer =
    | ProviderError(message: string)
    | NoUser
    | Signed(user: ProviderUser)

  const AlreadyRegistered: string := "User already registered"

  class BalanceStore {
    /** The `balance_<id>` entries of localStorage. */
    var storage: map<string, int>

    constructor (initial: map<string, int>)
      ensures storage == initial
    {
      storage := initial;
    }

    /** `getUserBalance`: the stored balance, or 1000 when there is none. */
    function GetUserBalance(userId: string): (b: int)
      reads this
      ensures BalanceKey(userId) !in storage ==> b == InitialBalance
      ensures BalanceKey(userId) in storage ==> b == storage[BalanceKey(userId)]
    {
      BalanceIn(storage, userId)
    }

    /** `updateUserBalance`: overwrite one user's entry; every other user keeps its balance. */
    method UpdateUserBalance(userId: string, newBalance: int) returns (ok: bool)
      modifies this
      ensures ok
      ensures storage == old(storage)[BalanceKey(userId) := newBalance]
      ensures GetUserBalance(userId) == newBalance
      ensures forall v :: v != userId ==> GetUserBalance(v) == old(GetUserBalance(v))
    {
      storage := storage[BalanceKey(userId) := newBalance];
      forall v | v != userId
        ensures GetUserBalance(v) == old(GetUserBalance(v))
      {
        WriteThenRead(old(storage), userId, newBalance, v);
      }
      ok := true;
    }

    /** `registerUser`: on a successful sign-up the new user's balance is set to 1000. */
    method RegisterUser(email: string, signUp: ProviderAnswer) returns (r: AuthResponse)
      modifies this
      ensures r.success <==> signUp.Signed?
      ensures signUp.ProviderError? ==>
        r.message == (if signUp.message == AlreadyRegistered then "El email ya está registrado"
                      else "Error al crear la cuenta")
      ensures signUp.NoUser? ==> r.message == "Error al crear la cuenta"
      ensures !signUp.Signed? ==> r.user == None && storage == old(storage)
      ensures signUp.Signed? ==>
        && r.message == "Cuenta creada exitosamente"
        && r.user == Some(User(signUp.user.id, if signUp.user.email != "" then signUp.user.email else email))
        && storage == old(storage)[BalanceKey(signUp.user.id) := InitialBalance]
        && GetUserBalance(signUp.user.id) == InitialBalance
    {
      match signUp
      case ProviderError(message) =>
        var text := if message == AlreadyRegistered then "El email ya está registrado"
                    else "Error al crear la cuenta";
        r := AuthResponse(false, text, None);
      case NoUser =>
        r := AuthResponse(false, "Error al crear la cuenta", None);
      case Signed(user) =>
        storage := storage[BalanceKey(user.id) := InitialBalance];
        // `authData.user.email || email`: an empty provider e-mail falls back to the typed one.
        var sessionUser := User(user.id, if user.email != "" then user.email else email);
        r := AuthResponse(true, "Cuenta creada exitosamente", Some(sessionUser));
    }

    /**
     * `loginUser`: 1000 is written only when the user has no stored balance, so an
     * existing balance survives, and no user's balance as read by `GetUserBalance` changes.
     */
    method LoginUser(email: string, signIn: ProviderAnswer) returns (r: AuthResponse)
      modifies this
      ensures r.success <==> signIn.Signed?
      ensures !signIn.Signed? ==>
        r == AuthResponse(false, "Email o contraseña incorrectos", None) && storage == old(storage)
      ensures signIn.Signed? ==>
        var key := BalanceKey(signIn.user.id);
        && r.message == "Inicio de sesión exitoso"
        && r.user == Some(User(signIn.user.id, if signIn.user.email != "" then signIn.user.email else email))
        && storage == (if key in old(storage) then old(storage) else old(storage)[key := InitialBalance])
      ensures forall v :: GetUserBalance(v) == old(GetUserBalance(v))
    {
      if !signIn.Signed? {
        r := AuthResponse(false, "Email o contraseña incorrectos", None);
        return;
      }
      var key := BalanceKey(signIn.user.id);
      if key !in storage {
        storage := storage[key := InitialBalance];
        forall v
          ensures GetUserBalance(v) == old(GetUserBalance(v))
        {
          WriteThenRead(old(storage), signIn.user.id, InitialBalance, v);
        }
      }
      var sessionUser := User(signIn.user.id, if signIn.user.email != "" then signIn.user.email else email);
      r := AuthResponse(true, "Inicio de sesión exitoso", Some(sessionUser));
    }
  }
}
