/**
 * Signup actions: the four action creators and the `signup` thunk, which
 * dispatches a fixed prelude, posts the six signup fields, and then either
 * stores the token and navigates to the profile (success) or reports the
 * error and shows toasts chosen by the HTTP status (failure).
 *
 * The thunk is specified by `SignupRun`, a function from the user details and
 * the way the POST settled to the log of effects and how the thunk ended;
 * `Signup` performs the same steps one at a time, and the lemmas state what
 * the sequence guarantees.
 */
module SignupActions {
  import opened JsValue
  import opened Effects

  // The action type constants; their values are taken to be their names.
  const UserSignup := "USER_SIGNUP"
  const RequestSignupTag := "REQUEST_SIGNUP"
  const SignupErrors := "SIGNUP_ERRORS"
  const UserLoggedIn := "USER_LOGGEDIN"

  /** `signupAction(user)`: the user record under `USER_SIGNUP`. */
  function SignupAction(user: Value): (r: Action)
    ensures r.tag == UserSignup && r.payload == user
  {
    Action(UserSignup, user)
  }

  /** `requestSignup(isRequesting)`: the request flag under `REQUEST_SIGNUP`. */
  function RequestSignup(isRequesting: Value): (r: Action)
    ensures r.tag == RequestSignupTag && r.payload == isRequesting
  {
    Action(RequestSignupTag, isRequesting)
  }

  /** `loggedIn(isLoggedIn)`: the session flag under `USER_LOGGEDIN`. */
  function LoggedIn(isLoggedIn: Value): (r: Action)
    ensures r.tag == UserLoggedIn && r.payload == isLoggedIn
  {
    Action(UserLoggedIn, isLoggedIn)
  }

  /** `signupError(errors)`: the error record under `SIGNUP_ERRORS`. */
  function SignupError(errors: Value): (r: Action)
    ensures r.tag == SignupErrors && r.payload == errors
  {
    Action(SignupErrors, errors)
  }

  /** The four creators never produce the same action, whatever their arguments. */
  lemma ActionCreatorsDistinct(x: Value, y: Value)
    ensures SignupAction(x) != RequestSignup(y) && SignupAction(x) != LoggedIn(y)
    ensures SignupAction(x) != SignupError(y) && RequestSignup(x) != LoggedIn(y)
    ensures RequestSignup(x) != SignupError(y) && LoggedIn(x) != SignupError(y)
  {
  }

  /** An object with one boolean property, as in `{ isRequesting: true }`. */
  function Flag(key: string, b: bool): Value {
    Obj(map[key := Bool(b)])
  }

  const Requesting := Dispatch(RequestSignup(Flag("isRequesting", true)))
  const RequestDone := Dispatch(RequestSignup(Flag("isRequesting", false)))
  const LoggedInTrue := Dispatch(LoggedIn(Flag("loggedIn", true)))

  /** The flag dispatches differ from each other and from the rest of the prelude. */
  lemma FlagsDistinct()
    ensures Requesting != RequestDone
    ensures Dispatch(LoggedIn(Flag("loggedIn", false))) != LoggedInTrue
  {
    assert Flag("isRequesting", true).props["isRequesting"] != Flag("isRequesting", false).props["isRequesting"];
    assert Flag("loggedIn", true).props["loggedIn"] != Flag("loggedIn", false).props["loggedIn"];
  }

  /** The four dispatches made before the request is sent. */
  const Prelude: seq<Effect> := [
    Requesting,
    Dispatch(SignupAction(Obj(map["user" := Obj(map[])]))),
    Dispatch(LoggedIn(Flag("loggedIn", false))),
    Dispatch(SignupError(Obj(map["error" := Obj(map[])])))
  ]

  const SignupPath := "/api/v1/users/signup"
  const TokenKey := "userToken"
  const ProfilePath := "/profile"
  const CreatedMessage := "Account created successfully"
  const GenericFailure := "Error Sigin up, please try again later"
  const SignupFields: set<string> := {"firstName", "lastName", "email", "phone", "password", "confirmPassword"}

  /** The request body: the six signup fields read from the details, nothing else. */
  function SignupBody(details: Value): Value
    requires !IsNullish(details)
  {
    Obj(map k | k in SignupFields :: Get(details, k))
  }

  /** The payload of the error action: `{ error: { status, message } }`. */
  function ErrorPayload(status: Value, message: Value): Value {
    Obj(map["error" := Obj(map["status" := status, "message" := message])])
  }

  /** The effects of a success response carrying `token` and `user`, after `isRequesting: false`. */
  function SuccessEffects(token: Value, user: Value): seq<Effect> {
    [
      StoreItem(TokenKey, ToText(token)),
      LoggedInTrue,
      Dispatch(SignupAction(user)),
      Toast(Str(CreatedMessage), 5000, "green"),
      Navigate(ProfilePath)
    ]
  }

  /** The `then` handler: a falsy response does nothing more; a response without `data` throws. */
  function OnResponse(response: Value): Run {
    if !Truthy(response) then Run([RequestDone], Settled)
    else
      var data := Get(response, "data");
      if IsNullish(data) then Run([RequestDone], Faulted)
      else Run([RequestDone] + SuccessEffects(Get(data, "token"), Get(data, "user")), Settled)
  }

  /** What the `then` handler throws when it cannot destructure the response: a TypeError, which has no `response`. */
  const ThenHandlerError := Obj(map["name" := Str("TypeError")])

  /** `message.map(err => toast(err.msg))`: stops at the first element that is undefined or null. */
  function FieldToasts(errors: seq<Value>): Run {
    if errors == [] then Run([], Settled)
    else if IsNullish(errors[0]) then Run([], Faulted)
    else
      var rest := FieldToasts(errors[1..]);
      Run([Toast(Get(errors[0], "msg"), 5000, "red")] + rest.log, rest.completion)
  }

  /**
   * The toasts chosen by the status code; only a number compares equal to
   * 400, 401 or 409. Every toast is red and lasts 5000 ms; only status 400
   * can throw, and every other status shows exactly one toast.
   */
  function StatusToasts(status: Value, message: Value): (r: Run)
    ensures forall i :: 0 <= i < |r.log| ==> r.log[i].Toast? && r.log[i].duration == 5000 && r.log[i].color == "red"
    ensures r.completion == Faulted ==> status == Num(400)
    ensures status != Num(400) ==> r.completion == Settled && |r.log| == 1
    ensures status == Num(400) && message.Arr? ==> |r.log| <= |message.items|
    ensures status == Num(400) && !message.Arr? ==> r.log == [] && r.completion == Faulted
  {
    if status == Num(400) then
      if message.Arr? then
        FieldToastsShape(message.items);
        FieldToasts(message.items)
      else Run([], Faulted)
    else if status == Num(401) || status == Num(409) then Run([Toast(message, 5000, "red")], Settled)
    else Run([Toast(Str(GenericFailure), 5000, "red")], Settled)
  }

  /** The `catch` handler: it destructures `error.response.status` and `error.response.data.message` first. */
  function OnError(error: Value): Run {
    if IsNullish(error) then Run([], Faulted)
    else
      var response := Get(error, "response");
      if IsNullish(response) then Run([], Faulted)
      else
        var data := Get(response, "data");
        if IsNullish(data) then Run([], Faulted)
        else
          var status := Get(response, "status");
          var message := Get(data, "message");
          var toasts := StatusToasts(status, message);
          Run([RequestDone, Dispatch(SignupError(ErrorPayload(status, message)))] + toasts.log, toasts.completion)
  }

  /**
   * The whole thunk, given the user details and how the POST settled. The
   * functions here carry the properties; the methods below perform the same
   * steps by appending to a log and are proved equal to them.
   */
  function SignupRun(details: Value, reply: Reply): Run {
    if IsNullish(details) then Run(Prelude, Faulted)
    else
      var sent := Prelude + [HttpPost(SignupPath, SignupBody(details))];
      match reply
      case Resolved(response) =>
        var handled := OnResponse(response);
        if handled.completion == Settled then Run(sent + handled.log, Settled)
        else
          var caught := OnError(ThenHandlerError);
          Run(sent + handled.log + caught.log, caught.completion)
      case Rejected(error) =>
        var caught := OnError(error);
        Run(sent + caught.log, caught.completion)
  }

  /** The signup succeeds: the details can be read and the POST resolved with a truthy response that has `data`. */
  predicate Succeeds(details: Value, reply: Reply) {
    && !IsNullish(details)
    && reply.Resolved?
    && Truthy(reply.response)
    && !IsNullish(Get(reply.response, "data"))
  }

  /** The rejection carries `response` and `response.data`, so the catch handler gets past its destructuring. */
  predicate WellFormedError(error: Value) {
    && !IsNullish(error)
    && !IsNullish(Get(error, "response"))
    && !IsNullish(Get(Get(error, "response"), "data"))
  }

  function ErrorStatus(error: Value): Value
    requires WellFormedError(error)
  {
    Get(Get(error, "response"), "status")
  }

  function ErrorMessage(error: Value): Value
    requires WellFormedError(error)
  {
    Get(Get(Get(error, "response"), "data"), "message")
  }

  /**
   * The four prelude dispatches always come first, `isRequesting: true`
   * leading; when the details can be read the POST follows them at once,
   * and when they cannot the thunk throws after the prelude.
   */
  lemma {:induction false} PreludeComesFirst(details: Value, reply: Reply)
    ensures var run := SignupRun(details, reply);
      && |run.log| >= 4 && run.log[..4] == Prelude && run.log[0] == Requesting
      && (IsNullish(details) ==> run == Run(Prelude, Faulted))
      && (!IsNullish(details) ==> |run.log| >= 5 && run.log[4] == HttpPost(SignupPath, SignupBody(details)))
  {
    var run := SignupRun(details, reply);
    if !IsNullish(details) {
      var sent := Prelude + [HttpPost(SignupPath, SignupBody(details))];
      assert run.log[..5] == sent by {
        match reply
        case Resolved(response) =>
          var handled := OnResponse(response);
          if handled.completion == Settled {
            assert run.log == sent + handled.log;
          } else {
            assert run.log == sent + (handled.log + OnError(ThenHandlerError).log);
          }
        case Rejected(error) =>
          assert run.log == sent + OnError(error).log;
      }
      assert run.log[..4] == sent[..4];
    }
  }

  /**
   * The body holds exactly the six signup fields, each read from the
   * details (absent ones as `undefined`); any other property is dropped.
   */
  lemma SignupBodyFields(details: Value, other: Value)
    requires !IsNullish(details) && !IsNullish(other)
    ensures SignupBody(details).Obj?
    ensures SignupBody(details).props.Keys == SignupFields
    ensures forall k :: k in SignupFields ==> SignupBody(details).props[k] == Get(details, k)
    ensures (forall k :: k in SignupFields ==> Get(details, k) == Get(other, k)) ==> SignupBody(details) == SignupBody(other)
  {
  }

  /**
   * A successful signup: after the prelude and the POST come
   * `isRequesting: false`, the token written under `userToken`,
   * `loggedIn: true`, the user action, the success toast and the navigation
   * to `/profile`, in that order, and the thunk settles.
   */
  lemma SuccessSequence(details: Value, reply: Reply)
    requires Succeeds(details, reply)
    ensures var data := Get(reply.response, "data");
      SignupRun(details, reply) == Run(
        Prelude + [HttpPost(SignupPath, SignupBody(details)), RequestDone,
                   StoreItem(TokenKey, ToText(Get(data, "token"))), LoggedInTrue,
                   Dispatch(SignupAction(Get(data, "user"))), Toast(Str(CreatedMessage), 5000, "green"),
                   Navigate(ProfilePath)],
        Settled)
  {
  }

  /** A log that writes no token and never dispatches `loggedIn: true`. */
  predicate NoSession(log: seq<Effect>) {
    forall i :: 0 <= i < |log| ==> !log[i].StoreItem? && log[i] != LoggedInTrue
  }

  /** Every entry of a toast loop's log is a red toast, one per element reached. */
  lemma {:induction false} FieldToastsShape(errors: seq<Value>)
    ensures var run := FieldToasts(errors);
      && |run.log| <= |errors|
      && (forall i :: 0 <= i < |run.log| ==> !IsNullish(errors[i]) && run.log[i] == Toast(Get(errors[i], "msg"), 5000, "red"))
      && (run.completion == Settled <==> forall k :: 0 <= k < |errors| ==> !IsNullish(errors[k]))
      && (run.completion == Settled ==> |run.log| == |errors|)
  {
    if errors != [] && !IsNullish(errors[0]) {
      FieldToastsShape(errors[1..]);
      var rest := FieldToasts(errors[1..]);
      assert FieldToasts(errors).log == [Toast(Get(errors[0], "msg"), 5000, "red")] + rest.log;
      forall i | 1 <= i < |FieldToasts(errors).log|
        ensures !IsNullish(errors[i]) && FieldToasts(errors).log[i] == Toast(Get(errors[i], "msg"), 5000, "red")
      {
        assert FieldToasts(errors).log[i] == rest.log[i - 1];
        assert errors[1..][i - 1] == errors[i];
      }
      if FieldToasts(errors).completion != Settled {
        var k :| 0 <= k < |errors[1..]| && IsNullish(errors[1..][k]);
        assert IsNullish(errors[k + 1]);
      }
    }
  }

  lemma OnErrorNoSession(error: Value)
    ensures NoSession(OnError(error).log)
    ensures Count(OnError(error).log, Requesting) == 0
    ensures Count(OnError(error).log, RequestDone) == (if WellFormedError(error) then 1 else 0)
  {
    var log := OnError(error).log;
    if WellFormedError(error) {
      var status, message := ErrorStatus(error), ErrorMessage(error);
      var toasts := StatusToasts(status, message).log;
      var reported := [RequestDone, Dispatch(SignupError(ErrorPayload(status, message)))];
      FlagsDistinct();
      assert reported == [RequestDone] + [reported[1]];
      CountAbsent([reported[1]], Requesting);
      CountAbsent([reported[1]], RequestDone);
      CountAbsent([RequestDone], Requesting);
      CountAppend([RequestDone], [reported[1]], Requesting);
      CountAppend([RequestDone], [reported[1]], RequestDone);
      assert log == [RequestDone, Dispatch(SignupError(ErrorPayload(status, message)))] + toasts;
      CountAbsent(toasts, Requesting);
      CountAbsent(toasts, RequestDone);
      CountAppend([RequestDone, Dispatch(SignupError(ErrorPayload(status, message)))], toasts, Requesting);
      CountAppend([RequestDone, Dispatch(SignupError(ErrorPayload(status, message)))], toasts, RequestDone);
    } else {
      assert log == [];
    }
  }

  /**
   * A token is written, and `loggedIn: true` dispatched, exactly when the
   * signup succeeds; a failure leaves no session behind.
   */
  lemma {:induction false} SessionOnlyOnSuccess(details: Value, reply: Reply)
    ensures var log := SignupRun(details, reply).log;
      && ((exists i :: 0 <= i < |log| && log[i].StoreItem?) <==> Succeeds(details, reply))
      && (LoggedInTrue in log <==> Succeeds(details, reply))
      && (Succeeds(details, reply) ==> StoreItem(TokenKey, ToText(Get(Get(reply.response, "data"), "token"))) in log)
  {
    var log := SignupRun(details, reply).log;
    if Succeeds(details, reply) {
      SuccessSequence(details, reply);
      assert log[6].StoreItem? && log[7] == LoggedInTrue;
    } else {
      FlagsDistinct();
      assert NoSession(Prelude);
      if !IsNullish(details) {
        var sent := Prelude + [HttpPost(SignupPath, SignupBody(details))];
        assert NoSession(sent);
        var tail: seq<Effect>;
        match reply {
          case Resolved(response) =>
            OnErrorNoSession(ThenHandlerError);
            tail := [RequestDone] + OnError(ThenHandlerError).log;
            if !Truthy(response) {
              assert log == sent + [RequestDone];
            } else {
              assert log == sent + tail;
            }
          case Rejected(error) =>
            OnErrorNoSession(error);
            assert log == sent + OnError(error).log;
        }
      }
      assert NoSession(log);
    }
  }

  /**
   * A rejection that carries `response.data` dispatches `isRequesting:
   * false` and then the error action with `{ error: { status, message } }`,
   * right after the POST.
   */
  lemma FailureReportsError(details: Value, error: Value)
    requires !IsNullish(details) && WellFormedError(error)
    ensures var log := SignupRun(details, Rejected(error)).log;
      && |log| >= 7
      && log[5] == RequestDone
      && log[6] == Dispatch(SignupError(ErrorPayload(ErrorStatus(error), ErrorMessage(error))))
  {
  }

  /** The log of a well-formed rejection after its two dispatches: the toasts. */
  function FailureToasts(details: Value, error: Value): seq<Effect>
    requires !IsNullish(details) && WellFormedError(error)
  {
    FailureReportsError(details, error);
    SignupRun(details, Rejected(error)).log[7..]
  }

  /**
   * Status 400 shows one red toast per element of `message`, in order,
   * each with that element's `msg`; an element that is undefined or null
   * stops the loop with a TypeError, and a `message` that is not an array
   * throws before any toast.
   */
  lemma FieldErrorsToastEach(details: Value, error: Value)
    requires !IsNullish(details) && WellFormedError(error)
    requires ErrorStatus(error) == Num(400)
    ensures var message := ErrorMessage(error);
      var run := SignupRun(details, Rejected(error));
      && (!message.Arr? ==> FailureToasts(details, error) == [] && run.completion == Faulted)
      && (message.Arr? ==>
            && |FailureToasts(details, error)| <= |message.items|
            && (forall i :: 0 <= i < |FailureToasts(details, error)| ==>
                  !IsNullish(message.items[i]) &&
                  FailureToasts(details, error)[i] == Toast(Get(message.items[i], "msg"), 5000, "red"))
            && (run.completion == Settled <==> forall k :: 0 <= k < |message.items| ==> !IsNullish(message.items[k]))
            && (run.completion == Settled ==> |FailureToasts(details, error)| == |message.items|))
  {
    var message := ErrorMessage(error);
    if message.Arr? {
      FieldToastsShape(message.items);
    }
  }

  /** Status 401 or 409 shows exactly one red toast holding `message` as it came. */
  lemma SingleMessageToast(details: Value, error: Value)
    requires !IsNullish(details) && WellFormedError(error)
    requires ErrorStatus(error) == Num(401) || ErrorStatus(error) == Num(409)
    ensures FailureToasts(details, error) == [Toast(ErrorMessage(error), 5000, "red")]
    ensures SignupRun(details, Rejected(error)).completion == Settled
  {
  }

  /** Any other status, a string "400" included, shows exactly the one generic toast. */
  lemma GenericFailureToast(details: Value, error: Value)
    requires !IsNullish(details) && WellFormedError(error)
    requires ErrorStatus(error) !in {Num(400), Num(401), Num(409)}
    ensures FailureToasts(details, error) == [Toast(Str(GenericFailure), 5000, "red")]
    ensures SignupRun(details, Rejected(error)).completion == Settled
  {
  }

  /**
   * A rejection without `response` (or without `response.data`) throws in
   * the catch handler before it dispatches anything: the log stops at the
   * POST and `isRequesting` is never reset.
   */
  lemma MissingResponseFaults(details: Value, error: Value)
    requires !IsNullish(details) && !WellFormedError(error)
    ensures SignupRun(details, Rejected(error)) == Run(Prelude + [HttpPost(SignupPath, SignupBody(details))], Faulted)
  {
  }

  lemma SentCounts(details: Value)
    requires !IsNullish(details)
    ensures var sent := Prelude + [HttpPost(SignupPath, SignupBody(details))];
      Count(sent, Requesting) == 1 && Count(sent, RequestDone) == 0
  {
    var rest := Prelude[1..] + [HttpPost(SignupPath, SignupBody(details))];
    FlagsDistinct();
    assert Prelude + [HttpPost(SignupPath, SignupBody(details))] == [Requesting] + rest;
    assert Requesting !in rest && RequestDone !in rest;
    CountAbsent(rest, Requesting);
    CountAbsent(rest, RequestDone);
    CountAppend([Requesting], rest, Requesting);
    CountAppend([Requesting], rest, RequestDone);
  }

  lemma OnResponseCounts(response: Value)
    ensures Count(OnResponse(response).log, Requesting) == 0
    ensures Count(OnResponse(response).log, RequestDone) == 1
  {
    var log := OnResponse(response).log;
    FlagsDistinct();
    assert log == [RequestDone] + log[1..];
    assert Requesting !in log && RequestDone !in log[1..];
    CountAbsent(log, Requesting);
    CountAbsent(log[1..], RequestDone);
    CountAppend([RequestDone], log[1..], RequestDone);
  }

  /**
   * `isRequesting: true` is dispatched once, first; `isRequesting: false` at
   * most once, and exactly once whenever the thunk settles.
   */
  lemma {:induction false} RequestFlagPaired(details: Value, reply: Reply)
    ensures var run := SignupRun(details, reply);
      && run.log[0] == Requesting
      && Count(run.log, Requesting) == 1
      && Count(run.log, RequestDone) <= 1
      && (run.completion == Settled ==> Count(run.log, RequestDone) == 1)
  {
    var run := SignupRun(details, reply);
    PreludeComesFirst(details, reply);
    if IsNullish(details) {
      SentCountsPrelude();
    } else {
      SentCounts(details);
      var sent := Prelude + [HttpPost(SignupPath, SignupBody(details))];
      match reply {
        case Resolved(response) =>
          var handled := OnResponse(response);
          OnResponseCounts(response);
          CountAppend(sent, handled.log, Requesting);
          CountAppend(sent, handled.log, RequestDone);
          if handled.completion != Settled {
            OnErrorNoSession(ThenHandlerError);
            assert run.log == (sent + handled.log) + OnError(ThenHandlerError).log;
            CountAppend(sent + handled.log, OnError(ThenHandlerError).log, Requesting);
            CountAppend(sent + handled.log, OnError(ThenHandlerError).log, RequestDone);
          }
        case Rejected(error) =>
          OnErrorNoSession(error);
          CountAppend(sent, OnError(error).log, Requesting);
          CountAppend(sent, OnError(error).log, RequestDone);
      }
    }
  }

  lemma SentCountsPrelude()
    ensures Count(Prelude, Requesting) == 1 && Count(Prelude, RequestDone) == 0
  {
    var rest := Prelude[1..];
    FlagsDistinct();
    assert Prelude == [Requesting] + rest;
    assert Requesting !in rest && RequestDone !in rest;
    CountAbsent(rest, Requesting);
    CountAbsent(rest, RequestDone);
    CountAppend([Requesting], rest, Requesting);
    CountAppend([Requesting], rest, RequestDone);
  }

  /** The `.then` handler, one step at a time. */
  method HandleResponse(response: Value) returns (log: seq<Effect>, completion: Completion)
    ensures Run(log, completion) == OnResponse(response)
  {
    log := [RequestDone];
    if !Truthy(response) {
      return log, Settled;
    }
    var data := Get(response, "data");
    if IsNullish(data) {
      // destructuring `{ data: { token, user } }` throws
      return log, Faulted;
    }
    log := log + [StoreItem(TokenKey, ToText(Get(data, "token")))];
    log := log + [LoggedInTrue];
    log := log + [Dispatch(SignupAction(Get(data, "user")))];
    log := log + [Toast(Str(CreatedMessage), 5000, "green")];
    log := log + [Navigate(ProfilePath)];
    return log, Settled;
  }

  /** The toast loop of the 400 case, `message.map(err => toast(err.msg))`. */
  method ToastFieldErrors(errors: seq<Value>) returns (log: seq<Effect>, completion: Completion)
    ensures Run(log, completion) == FieldToasts(errors)
  {
    log := [];
    var i := 0;
    while i < |errors|
      invariant 0 <= i <= |errors|
      invariant log + FieldToasts(errors[i..]).log == FieldToasts(errors).log
      invariant FieldToasts(errors[i..]).completion == FieldToasts(errors).completion
    {
      if IsNullish(errors[i]) {
        // `err.msg` throws
        return log, Faulted;
      }
      assert errors[i..][1..] == errors[i + 1..];
      log := log + [Toast(Get(errors[i], "msg"), 5000, "red")];
      i := i + 1;
    }
    return log, Settled;
  }

  /** The `.catch` handler, one step at a time. */
  method HandleError(error: Value) returns (log: seq<Effect>, completion: Completion)
    ensures Run(log, completion) == OnError(error)
  {
    log := [];
    if IsNullish(error) {
      return log, Faulted;
    }
    var response := Get(error, "response");
    if IsNullish(response) {
      return log, Faulted;
    }
    var data := Get(response, "data");
    if IsNullish(data) {
      return log, Faulted;
    }
    var status := Get(response, "status");
    var message := Get(data, "message");
    log := log + [RequestDone];
    log := log + [Dispatch(SignupError(ErrorPayload(status, message)))];
    if status == Num(400) {
      if !message.Arr? {
        // `message.map` is not a function
        return log, Faulted;
      }
      var toasts;
      toasts, completion := ToastFieldErrors(message.items);
      log := log + toasts;
    } else if status == Num(401) {
      log := log + [Toast(message, 5000, "red")];
      completion := Settled;
    } else if status == Num(409) {
      log := log + [Toast(message, 5000, "red")];
      completion := Settled;
    } else {
      log := log + [Toast(Str(GenericFailure), 5000, "red")];
      completion := Settled;
    }
  }

  /**
   * The thunk, one step at a time: the prelude, the POST, then the `then`
   * handler, and the `catch` handler when the POST is rejected or the `then`
   * handler throws.
   */
  method Signup(details: Value, reply: Reply) returns (log: seq<Effect>, completion: Completion)
    ensures Run(log, completion) == SignupRun(details, reply)
  {
    log := [Requesting];
    log := log + [Dispatch(SignupAction(Obj(map["user" := Obj(map[])])))];
    log := log + [Dispatch(LoggedIn(Flag("loggedIn", false)))];
    log := log + [Dispatch(SignupError(Obj(map["error" := Obj(map[])])))];
    assert log == Prelude;
    if IsNullish(details) {
      // destructuring `userDetails` throws before the request is made
      return log, Faulted;
    }
    log := log + [HttpPost(SignupPath, SignupBody(details))];

    var caught: Value;
    match reply {
      case Resolved(response) =>
        var handled;
        handled, completion := HandleResponse(response);
        log := log + handled;
        if completion == Settled {
          return log, Settled;
        }
        caught := ThenHandlerError;
      case Rejected(error) =>
        caught := error;
    }
    var reported;
    reported, completion := HandleError(caught);
    log := log + reported;
  }
}
