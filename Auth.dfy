/**
  * The authentication store (`src/stores/auth.ts`): the bearer token, mirrored
  * in browser storage under `auth_token`, obtained by `login` from the
  * server's `tokenCount;token` answer and dropped by `logout`.
  */
module Auth {
  import opened Wrappers
  import opened Api
  import opened Strings

  const LoginFailed := "Login failed"

  /** The token in a `tokenAcquire` answer: the second `;`-separated field
    * when the text contains `;`, otherwise the whole text. */
  function TokenFromResponse(response: string): (token: string)
    ensures ';' !in response ==> token == response
  {
    if ';' in response then Split(response, ';')[1]
    else response
  }

  /** The server's `count;token` answer gives the token back. */
  lemma {:induction false} TokenRoundTrip(count: string, token: string)
    requires ';' !in count && ';' !in token
    ensures TokenFromResponse(count + ";" + token) == token
  {
    SplitField(count, ';', token);
    SplitWhole(token, ';');
    assert (count + ";" + token)[|count|] == ';';
  }

  /** With more fields, the token is the text between the first and second `;`. */
  lemma {:induction false} TokenBetweenSeparators(count: string, token: string, rest: string)
    requires ';' !in count && ';' !in token
    ensures TokenFromResponse(count + ";" + token + ";" + rest) == token
  {
    var s := count + ";" + token + ";" + rest;
    assert s == count + [';'] + (token + [';'] + rest);
    SplitField(count, ';', token + [';'] + rest);
    SplitField(token, ';', rest);
    assert s[|count|] == ';';
  }

  /** `err.response.data.message || 'Login failed'` */
  function LoginError(message: Option<string>): (e: string)
    ensures e != ""
    ensures message.Some? && message.value != "" ==> e == message.value
  {
    if message.Some? && message.value != "" then message.value else LoginFailed
  }

  class AuthStore {
    var token: Option<string>
    /** Browser storage under `auth_token`. */
    var storedToken: Option<string>
    var loading: bool
    var error: Option<string>

    /** The store starts with whatever storage holds. */
    constructor(stored: Option<string>)
      ensures token == stored && storedToken == stored && !loading && error == None
    {
      token := stored;
      storedToken := stored;
      loading := false;
      error := None;
    }

    /** `!!token`: a token that is neither null nor empty. */
    predicate IsAuthenticated()
      reads this
    {
      token.Some? && token.value != ""
    }

    /** A successful `tokenAcquire` stores its token in the store and in
      * storage; a failure keeps the token, records the message and rethrows. */
    method Login(reply: Call<string>) returns (r: Call<()>)
      modifies this
      ensures !loading
      ensures reply.Returned? ==>
                r == Returned(()) && error == None
                && token == Some(TokenFromResponse(reply.value)) && storedToken == token
      ensures reply.Threw? ==>
                r == Threw(reply.message) && error == Some(LoginError(reply.message))
                && token == old(token) && storedToken == old(storedToken)
    {
      loading := true;
      error := None;
      if reply.Returned? {
        var authToken := TokenFromResponse(reply.value);
        token := Some(authToken);
        storedToken := Some(authToken);
        r := Returned(());
      } else {
        error := Some(LoginError(reply.message));
        r := Threw(reply.message);
      }
      loading := false;
    }

    /** `tokenWipe` may fail; the token is dropped from the store and from
      * storage either way, and the failure is swallowed. */
    method Logout(reply: Call<()>)
      modifies this
      ensures token == None && storedToken == None && !loading && error == old(error)
      ensures !IsAuthenticated()
    {
      loading := true;
      token := None;
      storedToken := None;
      loading := false;
    }

    method ClearError()
      modifies this
      ensures error == None && token == old(token) && storedToken == old(storedToken) && loading == old(loading)
    {
      error := None;
    }
  }

  /** Logging in with a well-formed answer authenticates exactly when the
    * token part is non-empty. */
  lemma {:induction false} LoginAuthenticates(count: string, t: string)
    requires ';' !in count && ';' !in t
    ensures var token := Some(TokenFromResponse(count + ";" + t));
            (token.Some? && token.value != "") <==> t != ""
  {
    TokenRoundTrip(count, t);
  }
}
