/**
 * The promotions page (`promociones/page.tsx`): the list fetch on mount, the
 * detail dialog, the payment handler with its busy flag, the success dialog, and
 * the render precedence.
 */
module Promociones {
  import opened Common
  import Api
  import Session

  const ListErrorMessage: string := "Error al obtener las promociones"
  const DetailErrorMessage: string := "Error al obtener los detalles de la promoción"

  class PromocionesScreen {
    var promociones: seq<Api.PromoSummary>
    var selected: Option<Api.PromoDetail>
    var loading: bool
    var error: Option<string>
    var isPaying: bool
    var success: bool
    var userId: Option<string>

    /** The state on mount. */
    constructor ()
      ensures promociones == [] && selected == None && loading && error == None
      ensures !isPaying && !success && userId == None
    {
      promociones, selected, loading, error := [], None, true, None;
      isPaying, success, userId := false, false, None;
    }

    /**
     * `fetchPromociones`, run to completion: `fetched` is how the awaited
     * `GetPromociones` call ended. `finally` clears `loading` either way.
     */
    method FetchPromociones(fetched: Api.Call<seq<Api.PromoSummary>>)
      modifies this
      ensures !loading
      ensures fetched.Returned? ==> promociones == fetched.value && error == old(error)
      ensures fetched.Threw? ==> promociones == old(promociones) && error == Some(ListErrorMessage)
      ensures selected == old(selected) && isPaying == old(isPaying) && success == old(success) && userId == old(userId)
    {
      match fetched {
        case Returned(list) => promociones := list;
        case Threw(_) => error := Some(ListErrorMessage);
      }
      loading := false;
    }

    /**
     * `handleSelectPromocion` (Ver detalles): `fetched` is how the awaited
     * `GetPromocion` call ended. A failure keeps the current selection.
     */
    method SelectPromocion(fetched: Api.Call<Api.PromoDetail>)
      modifies this
      ensures fetched.Returned? ==> selected == Some(fetched.value) && error == old(error)
      ensures fetched.Threw? ==> selected == old(selected) && error == Some(DetailErrorMessage)
      ensures promociones == old(promociones) && loading == old(loading) && isPaying == old(isPaying)
      ensures success == old(success) && userId == old(userId)
    {
      match fetched
      case Returned(detail) => selected := Some(detail);
      case Threw(_) => error := Some(DetailErrorMessage);
    }

    /** The synchronous start of `handlePagarPromocion`: busy. */
    method BeginPayment()
      modifies this
      ensures isPaying
      ensures promociones == old(promociones) && selected == old(selected) && loading == old(loading)
      ensures error == old(error) && success == old(success) && userId == old(userId)
    {
      isPaying := true;
    }

    /**
     * The rest of `handlePagarPromocion`. With no truthy stored `'id'` nothing is
     * asked and nothing changes but the busy flag; otherwise `reply` is how the
     * awaited `PagarPromocion` call ended: success opens the confirmation, a thrown
     * error's message becomes the screen error. `finally` clears the busy flag.
     */
    method FinishPayment(storage: Session.LocalStorage, reply: Api.Call<Api.PaymentReply>)
      modifies this
      ensures !isPaying
      ensures var id := storage.GetItem(Session.IdKey);
        if !Truthy(id) then
          success == old(success) && error == old(error) && userId == old(userId)
        else if reply.Returned? then
          success && error == old(error) && userId == id
        else
          success == old(success) && error == Some(reply.error.message) && userId == id
      ensures promociones == old(promociones) && selected == old(selected) && loading == old(loading)
    {
      var storedId := storage.GetItem(Session.IdKey);
      if Truthy(storedId) {
        userId := storedId;
        match reply
        case Returned(_) => success := true;
        case Threw(e) => error := Some(e.message);
      }
      isPaying := false;
    }

    /**
     * `handlePagarPromocion(selectedPromocion.id)` as a whole, with the current
     * `PagarPromocion` (whose request would settle as `o`): with a stored id the
     * payment succeeds; without one nothing but the busy flag moves.
     */
    method PagarPromocion(promocionId: Option<string>, storage: Session.LocalStorage, o: Api.HttpOutcome<Api.PaymentBody>)
      modifies this
      ensures !isPaying
      ensures Truthy(storage.GetItem(Session.IdKey)) ==>
                success && error == old(error) && userId == storage.GetItem(Session.IdKey)
      ensures !Truthy(storage.GetItem(Session.IdKey)) ==> success == old(success) && error == old(error) && userId == old(userId)
      ensures promociones == old(promociones) && selected == old(selected) && loading == old(loading)
    {
      BeginPayment();
      var storedId := storage.GetItem(Session.IdKey);
      if Truthy(storedId) {
        var reply := Api.PagarPromocion(promocionId, storedId.value, o);
        FinishPayment(storage, reply);
      } else {
        // no call without a stored id; only the finally runs
        isPaying := false;
      }
    }

    /** Cerrar, or dismissing the detail dialog: drops the selection only. */
    method CloseDetail()
      modifies this
      ensures selected == None
      ensures promociones == old(promociones) && loading == old(loading) && error == old(error)
      ensures isPaying == old(isPaying) && success == old(success) && userId == old(userId)
    {
      selected := None;
    }

    /** Dismissing the confirmation dialog: hides it only. */
    method CloseSuccess()
      modifies this
      ensures !success
      ensures promociones == old(promociones) && selected == old(selected) && loading == old(loading)
      ensures error == old(error) && isPaying == old(isPaying) && userId == old(userId)
    {
      success := false;
    }

    /** Aceptar in the confirmation dialog: hides it and drops the selection. */
    method AcceptSuccess()
      modifies this
      ensures !success && selected == None
      ensures promociones == old(promociones) && loading == old(loading) && error == old(error)
      ensures isPaying == old(isPaying) && userId == old(userId)
    {
      success := false;
      selected := None;
    }

    /** The detail dialog is `open={!!selectedPromocion}`. */
    function DetailOpen(): (open: bool)
      reads this
      ensures open <==> selected.Some?
    {
      selected.Some?
    }

    /** The Pagar button is disabled while a payment is in flight. */
    function PayDisabled(): (disabled: bool)
      reads this
      ensures disabled <==> isPaying
    {
      isPaying
    }

    /** The render precedence: spinner, else the error alone, else the list and dialogs. */
    function View(): (v: ScreenView)
      reads this
      ensures v.Content? <==> !loading && !Truthy(error)
    {
      RenderPrecedence(loading, error)
    }

    /**
     * The error line inside the detail dialog shows when the page renders its
     * dialogs, a promotion is selected and the error is truthy.
     */
    predicate InDialogErrorVisible()
      reads this
    {
      View().Content? && DetailOpen() && Truthy(error)
    }
  }

  /**
   * The error line inside the detail dialog never shows: a truthy error makes the
   * page render that error alone, so the dialogs are not rendered with it.
   */
  lemma InDialogErrorNeverVisible(screen: PromocionesScreen)
    ensures !screen.InDialogErrorVisible()
    ensures Truthy(screen.error) && !screen.loading ==> screen.View() == ErrorText(screen.error.value)
  {
  }
}
