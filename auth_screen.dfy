/** The sign-in / sign-up screen: form validation, the auth call, and the
    post-auth step that creates a profile and claims the one-time registration
    bonus only for a user who has no profile yet. */
module AuthScreen {
  import opened Wrappers
  import opened Backend

  datatype Mode = SignIn | SignUp

  const FILL_ALL_FIELDS: string := "Please fill in all fields"
  const PHONE_REQUIRED: string := "Phone number is required"
  const WELCOME_TEXT: string := "You received 6 free tokens!"

  datatype Alert = Alert(title: string, message: string)

  /** The auth call: sign-up carries the phone as `phone_number` user metadata. */
  datatype AuthCall = SignUpCall(email: string, password: string, phoneNumber: string)
                    | SignInCall(email: string, password: string)

  /** The awaited auth call: a user (or none), or an error (returned or thrown). */
  datatype AuthReply = AuthOk(userId: Option<string>) | AuthFailed(message: string)

  /** The `profiles` insert of a first sign-in. */
  datatype ProfileInsert = ProfileInsert(id: string, deviceFingerprints: seq<string>)

  /** What `handlePostAuth` did. */
  datatype PostAuthEffects = PostAuthEffects(
    profileInsert: Option<ProfileInsert>,
    bonusCall: Option<Rpc>,
    welcomed: bool,       // the welcome alert was shown
    authSucceeded: bool)  // `onAuthSuccess` was called

  /** What one press of the submit button did. */
  datatype AuthEffects = AuthEffects(alert: Option<Alert>, authCall: Option<AuthCall>, postAuth: Option<PostAuthEffects>)

  function Flip(mode: Mode): Mode {
    match mode
    case SignIn => SignUp
    case SignUp => SignIn
  }

  /** `handlePostAuth(userId)`: it fetches the fingerprint and looks for the user's
      profile; only when there is none does it insert one holding the fingerprint
      and request the registration bonus (welcoming the user if that succeeds);
      `onAuthSuccess` follows whether or not the profile existed, unless an awaited
      step threw, which is only logged. */
  function PostAuth(userId: string, fingerprint: Attempt<string>, profileReply: Response<Row>,
                    insertReply: Settled, bonusReply: Response<RpcData>): (e: PostAuthEffects)
    ensures e.profileInsert.Some? <==> fingerprint.Done? && profileReply == Resolved(None)
    ensures e.profileInsert.Some? ==> e.profileInsert.value == ProfileInsert(userId, [fingerprint.value])
    ensures e.bonusCall.Some? <==> e.profileInsert.Some? && insertReply.Fulfilled?
    ensures e.bonusCall.Some? ==> e.bonusCall.value == GrantRegistrationBonus(userId, fingerprint.value)
    ensures e.welcomed <==> e.bonusCall.Some? && bonusReply.Resolved? && bonusReply.data.Some?
                            && bonusReply.data.value.success
    ensures fingerprint.Done? && profileReply.Resolved? && profileReply.data.Some? ==> e.authSucceeded
    ensures e.authSucceeded <==>
              fingerprint.Done? && profileReply.Resolved?
              && (profileReply.data.None? ==> insertReply.Fulfilled? && bonusReply.Resolved?)
  {
    if fingerprint.Raised? || profileReply.Rejected? then PostAuthEffects(None, None, false, false)
    else if profileReply.data.Some? then PostAuthEffects(None, None, false, true)
    else
      var fp := fingerprint.value;
      var insert := Some(ProfileInsert(userId, [fp]));
      if insertReply.Thrown? then PostAuthEffects(insert, None, false, false)
      else
        var bonus := Some(GrantRegistrationBonus(userId, fp));
        if bonusReply.Rejected? then PostAuthEffects(insert, bonus, false, false)
        else PostAuthEffects(insert, bonus, bonusReply.data.Some? && bonusReply.data.value.success, true)
  }

  class AuthScreen {
    var mode: Mode
    var email: string
    var password: string
    var phone: string
    var loading: bool

    constructor ()
      ensures mode == SignIn && email == "" && password == "" && phone == "" && !loading
    {
      mode, email, password, phone, loading := SignIn, "", "", "", false;
    }

    /** Typing into the three text fields. */
    method EnterFields(email: string, password: string, phone: string)
      modifies this`email, this`password, this`phone
      ensures this.email == email && this.password == password && this.phone == phone
    {
      this.email, this.password, this.phone := email, password, phone;
    }

    /** The link under the button switches between sign-in and sign-up. */
    method ToggleMode()
      modifies this`mode
      ensures mode == Flip(old(mode)) && mode != old(mode)
    {
      mode := Flip(mode);
    }

    /** `handleEmailAuth`, from the submit button (disabled while loading): an empty
        email or password alerts before any call; in sign-up an empty phone alerts
        before any call; otherwise the auth call is made, an error alerts with its
        message, a returned user goes through post-auth; loading is false afterwards
        on every path. */
    method HandleEmailAuth(authReply: AuthReply, fingerprint: Attempt<string>, profileReply: Response<Row>,
                           insertReply: Settled, bonusReply: Response<RpcData>)
      returns (effects: AuthEffects)
      requires !loading
      modifies this`loading
      ensures !loading
      ensures email == "" || password == "" ==>
                effects == AuthEffects(Some(Alert("Error", FILL_ALL_FIELDS)), None, None)
      ensures email != "" && password != "" && mode == SignUp && phone == "" ==>
                effects == AuthEffects(Some(Alert("Error", PHONE_REQUIRED)), None, None)
      ensures effects.authCall.Some? <==> email != "" && password != "" && (mode == SignUp ==> phone != "")
      ensures effects.authCall.Some? ==>
                effects.authCall.value == (if mode == SignUp then SignUpCall(email, password, phone)
                                           else SignInCall(email, password))
      ensures effects.authCall.Some? && authReply.AuthFailed? ==>
                effects.alert == Some(Alert("Error", authReply.message)) && effects.postAuth.None?
      ensures effects.postAuth.Some? <==> effects.authCall.Some? && authReply.AuthOk? && authReply.userId.Some?
      ensures effects.postAuth.Some? ==>
                effects.postAuth.value == PostAuth(authReply.userId.value, fingerprint, profileReply, insertReply, bonusReply)
                && effects.alert == (if effects.postAuth.value.welcomed then Some(Alert("Welcome!", WELCOME_TEXT)) else None)
    {
      if email == "" || password == "" {
        return AuthEffects(Some(Alert("Error", FILL_ALL_FIELDS)), None, None);
      }
      loading := true;
      if mode == SignUp && phone == "" {
        loading := false;
        return AuthEffects(Some(Alert("Error", PHONE_REQUIRED)), None, None);
      }
      var call := if mode == SignUp then SignUpCall(email, password, phone) else SignInCall(email, password);
      effects := AuthEffects(None, Some(call), None);
      match authReply {
        case AuthFailed(message) =>
          effects := effects.(alert := Some(Alert("Error", message)));
        case AuthOk(userId) =>
          if userId.Some? {
            var post := PostAuth(userId.value, fingerprint, profileReply, insertReply, bonusReply);
            effects := effects.(postAuth := Some(post));
            if post.welcomed {
              effects := effects.(alert := Some(Alert("Welcome!", WELCOME_TEXT)));
            }
          }
      }
      loading := false;
    }
  }
}
