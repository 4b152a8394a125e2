/**
 * The modal registry of lib/store/modal-store.ts: two maps keyed by a closed
 * set of ten modal names, one to an open flag and one to the modal's payload.
 * `openModal`/`closeModal` copy the maps, change one key, and store the
 * copies; `closeAllModals` replaces both with empty maps.
 */
module Modals {
  import opened Options
  import CartLines

  datatype ModalType =
    | Auth | Search | QuickView | Cart | Checkout
    | OrderSuccess | AddressForm | ConfirmDelete | ShareProduct | ReviewForm

  datatype AuthTab = Login | Register
  datatype ButtonVariant = Default | Destructive

  /** A JavaScript callback, known to the model only by its identity. */
  datatype Callback = Callback(handle: nat)

  /** `ModalData`: every field optional. */
  datatype ModalData = ModalData(
    authDefaultTab: Option<AuthTab>,
    redirectUrl: Option<string>,
    product: Option<CartLines.Product>,
    confirmTitle: Option<string>,
    confirmMessage: Option<string>,
    confirmAction: Option<Callback>,
    confirmButtonText: Option<string>,
    confirmButtonVariant: Option<ButtonVariant>,
    orderId: Option<string>,
    orderNumber: Option<string>,
    addressId: Option<string>,
    onAddressSave: Option<Callback>,
    productId: Option<string>,
    productName: Option<string>,
    shareUrl: Option<string>,
    shareTitle: Option<string>,
    shareDescription: Option<string>)

  /** The payload `{}`. */
  const NoData: ModalData :=
    ModalData(None, None, None, None, None, None, None, None, None, None, None, None, None, None, None, None, None)

  /** The payload `openAuth(tab = 'login', redirectUrl)` stores. */
  function AuthPayload(tab: Option<AuthTab>, redirectUrl: Option<string>): (d: ModalData)
    ensures d.authDefaultTab.Some? && d.redirectUrl == redirectUrl
    ensures tab.None? ==> d.authDefaultTab == Some(Login)
    ensures tab.Some? ==> d.authDefaultTab == tab
  {
    NoData.(authDefaultTab := Some(tab.GetOr(Login)), redirectUrl := redirectUrl)
  }

  /** The payload `openConfirm({ title, message, onConfirm, buttonText = 'Confirm', buttonVariant = 'default' })` stores. */
  function ConfirmPayload(title: string, message: string, onConfirm: Callback,
                          buttonText: Option<string>, buttonVariant: Option<ButtonVariant>): (d: ModalData)
    ensures d.confirmTitle == Some(title) && d.confirmMessage == Some(message) && d.confirmAction == Some(onConfirm)
    ensures d.confirmButtonText.Some? && d.confirmButtonVariant.Some?
    ensures buttonText.None? ==> d.confirmButtonText == Some("Confirm")
    ensures buttonText.Some? ==> d.confirmButtonText == buttonText
    ensures buttonVariant.None? ==> d.confirmButtonVariant == Some(Default)
    ensures buttonVariant.Some? ==> d.confirmButtonVariant == buttonVariant
  {
    NoData.(confirmTitle := Some(title), confirmMessage := Some(message), confirmAction := Some(onConfirm),
            confirmButtonText := Some(buttonText.GetOr("Confirm")),
            confirmButtonVariant := Some(buttonVariant.GetOr(Default)))
  }

  class ModalStore {
    var modals: map<ModalType, bool>
    var data: map<ModalType, ModalData>

    /** `isOpen(type)`: `modals.get(type) || false`. */
    function IsOpen(t: ModalType): bool
      reads this
    {
      t in modals && modals[t]
    }

    /** `getData(type)`: `undefined` is `None`. */
    function GetData(t: ModalType): Option<ModalData>
      reads this
    {
      if t in data then Some(data[t]) else None
    }

    /** Both maps start empty: no modal is open and none has data. */
    constructor ()
      ensures modals == map[] && data == map[]
      ensures forall t :: !IsOpen(t) && GetData(t) == None
    {
      modals := map[];
      data := map[];
    }

    /**
     * `openModal(type, data?)`: marks `t` open; a payload replaces the stored
     * one, an omitted payload keeps it. No other key changes.
     */
    method OpenModal(t: ModalType, d: Option<ModalData>)
      modifies this
      ensures modals == old(modals)[t := true]
      ensures data == if d.Some? then old(data)[t := d.value] else old(data)
      ensures IsOpen(t)
      ensures GetData(t) == if d.Some? then d else old(GetData(t))
      ensures forall u :: u != t ==> IsOpen(u) == old(IsOpen(u)) && GetData(u) == old(GetData(u))
    {
      var newModals := modals[t := true];
      var newData := data;
      if d.Some? {
        newData := newData[t := d.value];
      }
      modals, data := newModals, newData;
    }

    /** `closeModal(type)`: marks `t` closed and deletes its payload. No other key changes. */
    method CloseModal(t: ModalType)
      modifies this
      ensures modals == old(modals)[t := false]
      ensures data == old(data) - {t}
      ensures !IsOpen(t) && GetData(t) == None
      ensures forall u :: u != t ==> IsOpen(u) == old(IsOpen(u)) && GetData(u) == old(GetData(u))
    {
      var newModals := modals[t := false];
      var newData := data - {t};
      modals, data := newModals, newData;
    }

    /** `closeAllModals()`: every modal closed, no payload left. */
    method CloseAllModals()
      modifies this
      ensures modals == map[] && data == map[]
      ensures forall t :: !IsOpen(t) && GetData(t) == None
    {
      modals, data := map[], map[];
    }

    /** `openAuth(tab = 'login', redirectUrl?)`. */
    method OpenAuth(tab: Option<AuthTab>, redirectUrl: Option<string>)
      modifies this
      ensures modals == old(modals)[Auth := true]
      ensures data == old(data)[Auth := AuthPayload(tab, redirectUrl)]
    {
      OpenModal(Auth, Some(AuthPayload(tab, redirectUrl)));
    }

    /** `openQuickView(product)`. */
    method OpenQuickView(product: CartLines.Product)
      modifies this
      ensures modals == old(modals)[QuickView := true]
      ensures data == old(data)[QuickView := NoData.(product := Some(product))]
    {
      OpenModal(QuickView, Some(NoData.(product := Some(product))));
    }

    /** `openSearch()`: no payload, so any stored search payload stays. */
    method OpenSearch()
      modifies this
      ensures modals == old(modals)[Search := true] && data == old(data)
    {
      OpenModal(Search, None);
    }

    /** `openCart()`. */
    method OpenCart()
      modifies this
      ensures modals == old(modals)[Cart := true] && data == old(data)
    {
      OpenModal(Cart, None);
    }

    /** `openCheckout()`. */
    method OpenCheckout()
      modifies this
      ensures modals == old(modals)[Checkout := true] && data == old(data)
    {
      OpenModal(Checkout, None);
    }

    /** `openConfirm(options)`: opens 'confirmDelete' with the defaulted button text and variant. */
    method OpenConfirm(title: string, message: string, onConfirm: Callback,
                       buttonText: Option<string>, buttonVariant: Option<ButtonVariant>)
      modifies this
      ensures modals == old(modals)[ConfirmDelete := true]
      ensures data == old(data)[ConfirmDelete := ConfirmPayload(title, message, onConfirm, buttonText, buttonVariant)]
    {
      OpenModal(ConfirmDelete, Some(ConfirmPayload(title, message, onConfirm, buttonText, buttonVariant)));
    }

    /** `openOrderSuccess(orderId, orderNumber)`. */
    method OpenOrderSuccess(orderId: string, orderNumber: string)
      modifies this
      ensures modals == old(modals)[OrderSuccess := true]
      ensures data == old(data)[OrderSuccess := NoData.(orderId := Some(orderId), orderNumber := Some(orderNumber))]
    {
      OpenModal(OrderSuccess, Some(NoData.(orderId := Some(orderId), orderNumber := Some(orderNumber))));
    }

    /** `openAddressForm(addressId?, onSave?)`: a payload object is passed even when both are omitted. */
    method OpenAddressForm(addressId: Option<string>, onSave: Option<Callback>)
      modifies this
      ensures modals == old(modals)[AddressForm := true]
      ensures data == old(data)[AddressForm := NoData.(addressId := addressId, onAddressSave := onSave)]
    {
      OpenModal(AddressForm, Some(NoData.(addressId := addressId, onAddressSave := onSave)));
    }

    /** `openReviewForm(productId, productName)`. */
    method OpenReviewForm(productId: string, productName: string)
      modifies this
      ensures modals == old(modals)[ReviewForm := true]
      ensures data == old(data)[ReviewForm := NoData.(productId := Some(productId), productName := Some(productName))]
    {
      OpenModal(ReviewForm, Some(NoData.(productId := Some(productId), productName := Some(productName))));
    }

    /** `openShare(url, title, description?)`: opens 'shareProduct'. */
    method OpenShare(url: string, title: string, description: Option<string>)
      modifies this
      ensures modals == old(modals)[ShareProduct := true]
      ensures data == old(data)[ShareProduct := NoData.(shareUrl := Some(url), shareTitle := Some(title), shareDescription := description)]
    {
      OpenModal(ShareProduct, Some(NoData.(shareUrl := Some(url), shareTitle := Some(title), shareDescription := description)));
    }
  }

  /** A fresh store reports every modal closed until one is opened, and opening one leaves the rest closed. */
  method OpenOneFromFresh(t: ModalType) returns (store: ModalStore)
    ensures store.IsOpen(t)
    ensures forall u :: u != t ==> !store.IsOpen(u) && store.GetData(u) == None
  {
    store := new ModalStore();
    store.OpenModal(t, None);
  }
}
