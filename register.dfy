/**
 * The register page (`auth/register/page.tsx`): the two field rules of its
 * validation schema, the `onError` status-to-message choice, and the
 * `errorMessage`/`loading` state its handlers update.
 */
module Register {
  import opened Common
  import Api
  import Patterns

  /** `/^[a-zA-Z ]+$/` and `/^[0-9]+$/`. */
  const NombrePattern: Patterns.Pattern := Patterns.OneOrMore(Patterns.LettersOrSpace)
  const TelefonoPattern: Patterns.Pattern := Patterns.OneOrMore(Patterns.Digits)
  /** The `len` test: `val?.length === 9`. */
  const TelefonoLength: nat := 9

  /** `nombre`: matches `/^[a-zA-Z ]+$/` and is required (non-empty). */
  function NombreValid(nombre: string): (ok: bool)
    ensures ok <==> |nombre| > 0 && forall i :: 0 <= i < |nombre| ==> Patterns.InClass(Patterns.LettersOrSpace, nombre[i])
  {
    Patterns.Matches(NombrePattern, nombre) && nombre != ""
  }

  /** `telefono`: matches `/^[0-9]+$/`, has length 9, and is required. */
  function TelefonoValid(telefono: string): (ok: bool)
    ensures ok <==> |telefono| == 9 && forall i :: 0 <= i < |telefono| ==> '0' <= telefono[i] <= '9'
  {
    Patterns.Matches(TelefonoPattern, telefono) && |telefono| == TelefonoLength && telefono != ""
  }

  /** The rules are character-class rules only: an accented letter is refused, a blank name is accepted. */
  lemma NombreExamples()
    ensures !NombreValid("José")
    ensures NombreValid("   ")
    ensures !NombreValid("")
  {
    assert !Patterns.InClass(Patterns.LettersOrSpace, "José"[3]);
  }

  const ServerError: string := "Error de servidor. Intente más tarde"
  const ConnectionError: string := "No se pudo conectar al server"
  const LoginRoute: string := "/auth/login"

  /** The mutation's `onError`: chooses the message by `error.response?.status`. */
  function ErrorMessage(e: Api.Thrown): (m: string)
    ensures e.Status() == Some(409) ==> m == Api.DuplicatePhone
    ensures e.Status() == Some(500) ==> m == ServerError
    ensures e.Status() != Some(409) && e.Status() != Some(500) ==> m == ConnectionError
  {
    match e.Status()
    case Some(409) => "Ya existe un usuario con ese teléfono"
    case Some(500) => "Error de servidor. Intente más tarde"
    case _ => "No se pudo conectar al server"
  }

  /**
   * `AuthRegister` turns a 409 into an `Error` without `response`, so `onError`
   * never sees status 409: a duplicate phone shows the connection message, and
   * the duplicate-phone message is never shown.
   */
  lemma DuplicatePhoneNeverShown(form: Api.RegisterForm, o: Api.HttpOutcome<int>)
    ensures Api.AuthRegister(form, o).Threw? ==> ErrorMessage(Api.AuthRegister(form, o).error) != Api.DuplicatePhone
    ensures o.HttpError? && o.status == 409 ==> ErrorMessage(Api.AuthRegister(form, o).error) == ConnectionError
  {
    if !o.Ok? {
      var e := Api.AuthRegister(form, o).error;
      assert e.Status() != Some(409);
      assert ServerError != Api.DuplicatePhone && ConnectionError != Api.DuplicatePhone by {
        assert |ServerError| != |Api.DuplicatePhone| && |ConnectionError| != |Api.DuplicatePhone|;
      }
    }
  }

  /** The component state of the register page. */
  class RegisterScreen {
    var errorMessage: Option<string>
    var loading: bool
    /** The last `router.push` target, if any. */
    var route: Option<string>

    constructor ()
      ensures errorMessage == None && !loading && route == None
    {
      errorMessage, loading, route := None, false, None;
    }

    /** The Registrarse button is `disabled={loading}`. */
    function SubmitDisabled(): (disabled: bool)
      reads this
      ensures disabled <==> loading
    {
      loading
    }

    /** `onSubmit`, up to the mutation call: clears the message and sets `loading`. */
    method OnSubmit(form: Api.RegisterForm)
      modifies this
      ensures errorMessage == None && loading && route == old(route)
    {
      errorMessage := None;
      loading := true;
    }

    /** The mutation's `onError`. */
    method OnError(e: Api.Thrown)
      modifies this
      ensures errorMessage == Some(ErrorMessage(e)) && loading == old(loading) && route == old(route)
    {
      errorMessage := Some(ErrorMessage(e));
    }

    /** The mutation's `onSuccess`: clears the message and goes to the login page. */
    method OnSuccess()
      modifies this
      ensures errorMessage == None && route == Some(LoginRoute) && loading == old(loading)
    {
      errorMessage := None;
      route := Some(LoginRoute);
    }

    /**
     * A submit attempt. Formik calls `onSubmit` only when both fields pass, and the
     * disabled button lets no submit through while `loading`; otherwise the
     * mutation runs `AuthRegister` on the request outcome `o` and then `onSuccess`
     * or `onError`. Nothing sets `loading` back to false.
     */
    method Submit(form: Api.RegisterForm, o: Api.HttpOutcome<int>)
      modifies this
      ensures old(loading) ==> loading
      ensures old(loading) || !NombreValid(form.nombre) || !TelefonoValid(form.telefono) ==>
                errorMessage == old(errorMessage) && loading == old(loading) && route == old(route)
      ensures !old(loading) && NombreValid(form.nombre) && TelefonoValid(form.telefono) ==>
                loading &&
                match Api.AuthRegister(form, o)
                case Returned(_) => errorMessage == None && route == Some(LoginRoute)
                case Threw(e) => errorMessage == Some(ErrorMessage(e)) && route == old(route)
    {
      if loading || !NombreValid(form.nombre) || !TelefonoValid(form.telefono) {
        return;
      }
      OnSubmit(form);
      match Api.AuthRegister(form, o)
      case Returned(_) => OnSuccess();
      case Threw(e) => OnError(e);
    }
  }
}
