/**
 * The login page (`auth/login/page.tsx`): the phone rule of its validation schema,
 * and `onSubmit`, which stores the returned id under `'id'` and navigates, or
 * shows the thrown message.
 */
module Login {
  import opened Common
  import Api
  import Patterns
  import Session
  import Register

  /** `/^[0-9]{9}$/`. */
  const TelefonoPattern: Patterns.Pattern := Patterns.Exactly(Patterns.Digits, 9)
  const DashboardRoute: string := "/dashboard"

  /** `telefono`: matches `/^[0-9]{9}$/` and is required. */
  function TelefonoValid(telefono: string): (ok: bool)
    ensures ok <==> |telefono| == 9 && forall i :: 0 <= i < |telefono| ==> '0' <= telefono[i] <= '9'
  {
    Patterns.Matches(TelefonoPattern, telefono) && telefono != ""
  }

  /** Login and register accept exactly the same phone strings. */
  lemma SamePhoneRuleAsRegister(telefono: string)
    ensures TelefonoValid(telefono) <==> Register.TelefonoValid(telefono)
  {
  }

  /** Without the multiline flag `$` does not match before a final newline, and an empty field is refused. */
  lemma TrailingNewlineRejected(telefono: string)
    ensures !TelefonoValid(telefono + "\n")
    ensures !TelefonoValid("")
  {
    var s := telefono + "\n";
    assert s[|s| - 1] == '\n';
  }

  /** The component state of the login page. */
  class LoginScreen {
    var errorMessage: Option<string>
    /** The last `router.push` target, if any. */
    var route: Option<string>

    constructor ()
      ensures errorMessage == None && route == None
    {
      errorMessage, route := None, None;
    }

    /**
     * `onSubmit` after `AuthLogin` settles: a returned id is written under `'id'`
     * (as the string `String(id)`) and the page goes to the dashboard; a thrown
     * error's message is shown and storage is left alone. The message is never
     * cleared.
     */
    method HandleLogin(r: Api.Call<int>, storage: Session.LocalStorage)
      modifies this, storage
      ensures r.Returned? ==>
                storage.items == old(storage.items)[Session.IdKey := NumberText(r.value)] &&
                route == Some(DashboardRoute) && errorMessage == old(errorMessage)
      ensures r.Threw? ==>
                storage.items == old(storage.items) && route == old(route) && errorMessage == Some(r.error.message)
    {
      match r
      case Returned(id) =>
        storage.SetItem(Session.IdKey, NumberText(id));
        route := Some(DashboardRoute);
      case Threw(e) =>
        errorMessage := Some(e.message);
    }

    /**
     * A submit attempt: Formik calls `onSubmit` only with a valid phone. With the
     * current `AuthLogin` every such submit stores id `"1"`.
     */
    method Submit(form: Api.LoginForm, o: Api.HttpOutcome<int>, storage: Session.LocalStorage)
      modifies this, storage
      ensures !TelefonoValid(form.telefono) ==>
                storage.items == old(storage.items) && route == old(route) && errorMessage == old(errorMessage)
      ensures TelefonoValid(form.telefono) ==>
                storage.items == old(storage.items)[Session.IdKey := "1"] &&
                route == Some(DashboardRoute) && errorMessage == old(errorMessage)
    {
      if !TelefonoValid(form.telefono) {
        return;
      }
      var r := Api.AuthLogin(form, o);
      assert NumberText(1) == "1";
      HandleLogin(r, storage);
    }
  }
}
