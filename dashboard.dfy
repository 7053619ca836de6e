/**
 * The dashboard (`dashboard/page.tsx`): the balance and name fetches on mount,
 * the transfer dialog's handlers, and the render precedence. Each handler is one
 * method that updates the component's state fields and says what it leaves alone.
 */
module Dashboard {
  import opened Common
  import Api
  import Session

  const SaldoErrorMessage: string := "Error al obtener el saldo"
  const NombreErrorMessage: string := "Error al obtener el nombre"
  const NotAuthenticated: string := "Usuario no autenticado"

  /** The transfer form on mount and after the dialog is closed. */
  const EmptyForm: Api.TransferForm := Api.TransferForm("", 0, "")

  /** The `name` attributes of the dialog's three inputs. */
  datatype TransferField = DestinatarioNumero | Monto | Descripcion

  class DashboardScreen {
    var userId: Option<string>
    var saldo: int
    var loading: bool
    var error: Option<string>
    var dialogOpen: bool
    var transferForm: Api.TransferForm
    var transferError: Option<string>
    var isTransfering: bool
    var nombre: Option<string>

    /** The state on mount. */
    constructor ()
      ensures userId == None && saldo == 0 && loading && error == None
      ensures !dialogOpen && transferForm == EmptyForm && transferError == None && !isTransfering
      ensures nombre == None
    {
      userId, saldo, loading, error := None, 0, true, None;
      dialogOpen, transferForm, transferError, isTransfering := false, EmptyForm, None, false;
      nombre := None;
    }

    /** The dialog's state, which the fetches leave alone. */
    ghost function DialogState(): (bool, Api.TransferForm, Option<string>, bool)
      reads this
    {
      (dialogOpen, transferForm, transferError, isTransfering)
    }

    /**
     * `fetchSaldo`, run to completion as one event: with a truthy stored `'id'` it
     * asks `GetSaldo` (whose request settles as `o`) and stores the number it
     * returns, or sets the fixed error; its `finally` clears `loading` in every case.
     */
    method FetchSaldo(storage: Session.LocalStorage, o: Api.HttpOutcome<int>)
      modifies this
      ensures !loading && nombre == old(nombre) && DialogState() == old(DialogState())
      ensures var id := storage.GetItem(Session.IdKey);
        if !Truthy(id) then
          userId == old(userId) && saldo == old(saldo) && error == old(error)
        else if o.Ok? then
          userId == id && saldo == o.data && error == old(error)
        else
          userId == id && saldo == old(saldo) && error == Some(SaldoErrorMessage)
    {
      var storedId := storage.GetItem(Session.IdKey);
      if Truthy(storedId) {
        userId := storedId;
        var fetched := Api.GetSaldo(storedId, o);
        if fetched.Returned? {
          assert fetched == Api.Returned(Api.SaldoNumber(o.data));
          saldo := fetched.value.amount;
        } else {
          error := Some(SaldoErrorMessage);
        }
      }
      loading := false;
    }

    /**
     * `fetchNombre`, run to completion as one event. `fetched` is how the awaited
     * `GetPersonaNombre` call ended; it is consulted only with a truthy stored id.
     */
    method FetchNombre(storage: Session.LocalStorage, fetched: Api.Call<string>)
      modifies this
      ensures !loading && saldo == old(saldo) && DialogState() == old(DialogState())
      ensures var id := storage.GetItem(Session.IdKey);
        if !Truthy(id) then
          userId == old(userId) && nombre == old(nombre) && error == old(error)
        else if fetched.Returned? then
          userId == id && nombre == Some(fetched.value) && error == old(error)
        else
          userId == id && nombre == old(nombre) && error == Some(NombreErrorMessage)
    {
      var storedId := storage.GetItem(Session.IdKey);
      if Truthy(storedId) {
        userId := storedId;
        match fetched
        case Returned(n) => nombre := Some(n);
        case Threw(_) => error := Some(NombreErrorMessage);
      }
      loading := false;
    }

    /** `handleOpenDialog`. */
    method OpenDialog()
      modifies this
      ensures dialogOpen
      ensures transferForm == old(transferForm) && transferError == old(transferError) && isTransfering == old(isTransfering)
      ensures userId == old(userId) && saldo == old(saldo) && loading == old(loading) && error == old(error) && nombre == old(nombre)
    {
      dialogOpen := true;
    }

    /** `handleCloseDialog` (Cancelar, or dismissing the dialog): closes it, empties the form, clears the error. */
    method CloseDialog()
      modifies this
      ensures !dialogOpen && transferForm == EmptyForm && transferError == None
      ensures isTransfering == old(isTransfering)
      ensures userId == old(userId) && saldo == old(saldo) && loading == old(loading) && error == old(error) && nombre == old(nombre)
    {
      dialogOpen := false;
      transferForm := EmptyForm;
      transferError := None;
    }

    /**
     * `handleTransferChange`: replaces only the named field; `monto` receives the
     * input as a number (`asNumber`, the already parsed `Number(value)`), the other
     * fields the raw string.
     */
    method TransferChange(field: TransferField, value: string, asNumber: int)
      modifies this
      ensures field == DestinatarioNumero ==> transferForm == old(transferForm).(destinatarioNumero := value)
      ensures field == Monto ==> transferForm == old(transferForm).(monto := asNumber)
      ensures field == Descripcion ==> transferForm == old(transferForm).(descripcion := value)
      ensures dialogOpen == old(dialogOpen) && transferError == old(transferError) && isTransfering == old(isTransfering)
      ensures userId == old(userId) && saldo == old(saldo) && loading == old(loading) && error == old(error) && nombre == old(nombre)
    {
      match field
      case DestinatarioNumero => transferForm := transferForm.(destinatarioNumero := value);
      case Monto => transferForm := transferForm.(monto := asNumber);
      case Descripcion => transferForm := transferForm.(descripcion := value);
    }

    /** The synchronous start of `handleSubmitTransfer`: busy, no error shown. */
    method BeginTransfer()
      modifies this
      ensures isTransfering && transferError == None
      ensures dialogOpen == old(dialogOpen) && transferForm == old(transferForm)
      ensures userId == old(userId) && saldo == old(saldo) && loading == old(loading) && error == old(error) && nombre == old(nombre)
    {
      isTransfering := true;
      transferError := None;
    }

    /**
     * The rest of `handleSubmitTransfer`. Without a truthy `userId` it throws
     * "Usuario no autenticado" before any call; otherwise `reply` is how the
     * awaited `Transferencia` call ended. Success closes the dialog and leaves the
     * form as it is; a thrown error shows its message; `finally` clears the busy flag.
     */
    method FinishTransfer(reply: Api.Call<Api.TransferReply>)
      modifies this
      ensures !isTransfering && transferForm == old(transferForm)
      ensures !Truthy(userId) ==> transferError == Some(NotAuthenticated) && dialogOpen == old(dialogOpen)
      ensures Truthy(userId) && reply.Returned? ==> transferError == old(transferError) && !dialogOpen
      ensures Truthy(userId) && reply.Threw? ==> transferError == Some(reply.error.message) && dialogOpen == old(dialogOpen)
      ensures userId == old(userId) && saldo == old(saldo) && loading == old(loading) && error == old(error) && nombre == old(nombre)
    {
      if !Truthy(userId) {
        transferError := Some(NotAuthenticated);
      } else {
        match reply
        case Returned(_) => dialogOpen := false;
        case Threw(e) => transferError := Some(e.message);
      }
      isTransfering := false;
    }

    /**
     * `handleSubmitTransfer` as a whole, with the current `Transferencia` (whose
     * request would settle as `o`): with a user the dialog closes with no error and
     * the form keeps its values; without one the error is set and the dialog stays.
     */
    method SubmitTransfer(o: Api.HttpOutcome<Api.TransferReply>)
      modifies this
      ensures !isTransfering && transferForm == old(transferForm)
      ensures Truthy(userId) ==> !dialogOpen && transferError == None
      ensures !Truthy(userId) ==> dialogOpen == old(dialogOpen) && transferError == Some(NotAuthenticated)
      ensures userId == old(userId) && saldo == old(saldo) && loading == old(loading) && error == old(error) && nombre == old(nombre)
    {
      BeginTransfer();
      if Truthy(userId) {
        var reply := Api.Transferencia(userId.value, transferForm, o);
        FinishTransfer(reply);
      } else {
        // the throw before the call, its catch and its finally
        transferError := Some(NotAuthenticated);
        isTransfering := false;
      }
    }

    /** The Transferir button is disabled exactly while a transfer is in flight. */
    function TransferButtonDisabled(): (disabled: bool)
      reads this
      ensures disabled <==> isTransfering
    {
      isTransfering
    }

    /** The render precedence: spinner, else the error alone, else the dashboard. */
    function View(): (v: ScreenView)
      reads this
      ensures v.Content? <==> !loading && !Truthy(error)
    {
      RenderPrecedence(loading, error)
    }
  }

  /**
   * The page's mount with a stored session: both fetches run and settle, in
   * either order. The page imports `GetPersonaNombre`, which the API module does
   * not define, so calling it throws (`missing`), and the name fetch always ends
   * in its error: with a session the dashboard body, and with it the transfer
   * dialog, never shows.
   */
  method MountWithSession(storage: Session.LocalStorage, o: Api.HttpOutcome<int>, missing: Api.Thrown, nombreFirst: bool)
    returns (v: ScreenView)
    requires Truthy(storage.GetItem(Session.IdKey))
    ensures v.ErrorText? && !v.Content?
    ensures o.Ok? || !nombreFirst ==> v == ErrorText(NombreErrorMessage)
    ensures !o.Ok? && nombreFirst ==> v == ErrorText(SaldoErrorMessage)
  {
    var screen := new DashboardScreen();
    if nombreFirst {
      screen.FetchNombre(storage, Api.Threw(missing));
      screen.FetchSaldo(storage, o);
    } else {
      screen.FetchSaldo(storage, o);
      screen.FetchNombre(storage, Api.Threw(missing));
    }
    v := screen.View();
  }
}
