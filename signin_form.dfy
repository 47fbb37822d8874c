/**
 * The signin form component: its state holds the typed fields, a change
 * event overwrites the one field it names, and submitting either shows one
 * red toast per local validation error or hands the state to the `signin`
 * thunk, never both.
 */
module SigninForm {
  import opened JsValue
  import opened Effects

  /** One entry of the list the local validator returns: `{ message }`. */
  datatype ValidationError = ValidationError(message: string)

  /** The toast shown for one validation error. */
  function ErrorToast(error: ValidationError): Effect {
    Toast(Str(error.message), 3000, "red")
  }

  class SigninForm {
    /** `this.state`, a record keyed by input name. */
    var state: map<string, string>

    constructor()
      ensures state == map["email" := "", "password" := ""]
    {
      state := map["email" := "", "password" := ""];
    }

    /**
     * `handleChange`: sets the property named by the input's `name` to its
     * value; every other property keeps its value.
     */
    method HandleChange(name: string, value: string)
      modifies this
      ensures name in state && state[name] == value
      ensures state.Keys == old(state).Keys + {name}
      ensures forall k :: k in old(state) && k != name ==> state[k] == old(state)[k]
    {
      state := state[name := value];
    }

    /**
     * `handleSignin`, with the validator passed in: when it reports errors,
     * one red toast per error in list order and nothing else; when it reports
     * none, exactly one call of `signin` with the current state and no toast.
     */
    method HandleSignin(validate: map<string, string> -> seq<ValidationError>) returns (log: seq<Effect>)
      ensures var errors := validate(state);
        && (|errors| > 0 ==> |log| == |errors| && forall i :: 0 <= i < |errors| ==> log[i] == ErrorToast(errors[i]))
        && (|errors| == 0 <==> log == [CallSignin(state)])
        && (CallSignin(state) in log <==> |errors| == 0)
    {
      var errors := validate(state);
      if |errors| > 0 {
        log := [];
        var i := 0;
        while i < |errors|
          invariant 0 <= i <= |errors|
          invariant |log| == i
          invariant forall j :: 0 <= j < i ==> log[j] == ErrorToast(errors[j])
        {
          log := log + [ErrorToast(errors[i])];
          i := i + 1;
        }
        assert log[0] != CallSignin(state);
        return;
      }
      log := [CallSignin(state)];
    }
  }
}
