/** The session state of the dashboard (project/src/hooks/useAuth.tsx): the
    stored token, the signed-in user and the loading flag, as the start-up
    effect, login, register and logout change them. localStorage is a map
    field; the backend's answers are method inputs. */
module Auth {
  import opened Common
  import opened Domain
  import Api

  /** What a successful login or registration carries. */
  datatype Grant = Grant(token: string, user: User)

  /** `localStorage.getItem('authToken')` read as a condition. */
  predicate HasToken(storage: map<string, string>) {
    Api.TokenKey in storage && storage[Api.TokenKey] != ""
  }

  /** `localStorage.removeItem('authToken')` */
  function WithoutToken(storage: map<string, string>): (r: map<string, string>)
    ensures Api.TokenKey !in r
    ensures forall k :: k != Api.TokenKey ==> (k in r <==> k in storage) && (k in r ==> r[k] == storage[k])
  {
    storage - {Api.TokenKey}
  }

  /** Removing the token twice is removing it once. */
  lemma WithoutTokenIdempotent(storage: map<string, string>)
    ensures WithoutToken(WithoutToken(storage)) == WithoutToken(storage)
    ensures !HasToken(WithoutToken(storage))
  {
  }

  class Session {
    var storage: map<string, string>
    var user: Option<User>
    var isLoading: bool

    /** The hook's initial state, over whatever localStorage holds. */
    constructor (storage: map<string, string>)
      ensures this.storage == storage && user == None && isLoading
    {
      this.storage := storage;
      user := None;
      isLoading := true;
    }

    /** The start-up effect. `verification` is the outcome of the request
        `verifyToken` makes with the stored token; it is not looked at when
        no token is stored. */
    method Init(verification: Api.Outcome<User>)
      modifies this
      ensures !isLoading
      ensures !old(HasToken(storage)) ==> storage == old(storage) && user == old(user)
      ensures old(HasToken(storage)) && Api.VerifyToken(verification).Some? ==>
        storage == old(storage) && user == Api.VerifyToken(verification)
      ensures old(HasToken(storage)) && Api.VerifyToken(verification).None? ==>
        storage == WithoutToken(old(storage)) && user == old(user)
    {
      if HasToken(storage) {
        var verified := Api.VerifyToken(verification);
        if verified.Some? {
          user := verified;
        } else {
          storage := WithoutToken(storage);
        }
      }
      isLoading := false;
    }

    /** The body shared by `login` and `register`: a successful reply with
        data stores the token and signs the user in; anything else changes
        nothing. */
    method Authenticate(reply: Api.Outcome<Grant>) returns (ok: bool)
      modifies this`storage, this`user
      ensures ok <==> reply.Returned? && reply.doc.success && reply.doc.data.Some?
      ensures ok ==> storage == old(storage)[Api.TokenKey := reply.doc.data.value.token]
                     && user == Some(reply.doc.data.value.user)
      ensures !ok ==> storage == old(storage) && user == old(user)
    {
      if reply.Returned? && reply.doc.success && reply.doc.data.Some? {
        var grant := reply.doc.data.value;
        storage := storage[Api.TokenKey := grant.token];
        user := Some(grant.user);
        return true;
      }
      return false;
    }

    method Login(reply: Api.Outcome<Grant>) returns (ok: bool)
      modifies this`storage, this`user
      ensures ok <==> reply.Returned? && reply.doc.success && reply.doc.data.Some?
      ensures ok ==> storage == old(storage)[Api.TokenKey := reply.doc.data.value.token]
                     && user == Some(reply.doc.data.value.user)
      ensures !ok ==> storage == old(storage) && user == old(user)
    {
      ok := Authenticate(reply);
    }

    method Register(reply: Api.Outcome<Grant>) returns (ok: bool)
      modifies this`storage, this`user
      ensures ok <==> reply.Returned? && reply.doc.success && reply.doc.data.Some?
      ensures ok ==> storage == old(storage)[Api.TokenKey := reply.doc.data.value.token]
                     && user == Some(reply.doc.data.value.user)
      ensures !ok ==> storage == old(storage) && user == old(user)
    {
      ok := Authenticate(reply);
    }

    /** From any state: no token, no user; other stored entries stay. */
    method Logout()
      modifies this`storage, this`user
      ensures storage == WithoutToken(old(storage)) && user == None
    {
      storage := WithoutToken(storage);
      user := None;
    }
  }
}
