/**
 * The UI flag store of lib/store/ui-store.ts: five booleans and the product
 * shown in the quick view. Every action assigns or negates one field.
 */
module Ui {
  import opened Options
  import CartLines
  import Modals

  class UIStore {
    var authModalOpen: bool
    var searchModalOpen: bool
    /** `quickViewProduct`; `null` is `None`. */
    var quickViewProduct: Option<CartLines.Product>
    var mobileMenuOpen: bool
    var cartOpen: bool
    var isScrolled: bool

    /** The initial state: every flag false and no quick-view product. */
    constructor ()
      ensures !authModalOpen && !searchModalOpen && quickViewProduct == None
      ensures !mobileMenuOpen && !cartOpen && !isScrolled
    {
      authModalOpen, searchModalOpen, quickViewProduct := false, false, None;
      mobileMenuOpen, cartOpen, isScrolled := false, false, false;
    }

    /** `openAuthModal(tab)`: the tab argument is ignored. */
    method OpenAuthModal(tab: Option<Modals.AuthTab>)
      modifies this
      ensures authModalOpen
      ensures searchModalOpen == old(searchModalOpen) && quickViewProduct == old(quickViewProduct)
      ensures mobileMenuOpen == old(mobileMenuOpen) && cartOpen == old(cartOpen) && isScrolled == old(isScrolled)
    {
      authModalOpen := true;
    }

    method CloseAuthModal()
      modifies this
      ensures !authModalOpen
      ensures searchModalOpen == old(searchModalOpen) && quickViewProduct == old(quickViewProduct)
      ensures mobileMenuOpen == old(mobileMenuOpen) && cartOpen == old(cartOpen) && isScrolled == old(isScrolled)
    {
      authModalOpen := false;
    }

    method OpenSearchModal()
      modifies this
      ensures searchModalOpen
      ensures authModalOpen == old(authModalOpen) && quickViewProduct == old(quickViewProduct)
      ensures mobileMenuOpen == old(mobileMenuOpen) && cartOpen == old(cartOpen) && isScrolled == old(isScrolled)
    {
      searchModalOpen := true;
    }

    method CloseSearchModal()
      modifies this
      ensures !searchModalOpen
      ensures authModalOpen == old(authModalOpen) && quickViewProduct == old(quickViewProduct)
      ensures mobileMenuOpen == old(mobileMenuOpen) && cartOpen == old(cartOpen) && isScrolled == old(isScrolled)
    {
      searchModalOpen := false;
    }

    method OpenQuickView(product: CartLines.Product)
      modifies this
      ensures quickViewProduct == Some(product)
      ensures authModalOpen == old(authModalOpen) && searchModalOpen == old(searchModalOpen)
      ensures mobileMenuOpen == old(mobileMenuOpen) && cartOpen == old(cartOpen) && isScrolled == old(isScrolled)
    {
      quickViewProduct := Some(product);
    }

    method CloseQuickView()
      modifies this
      ensures quickViewProduct == None
      ensures authModalOpen == old(authModalOpen) && searchModalOpen == old(searchModalOpen)
      ensures mobileMenuOpen == old(mobileMenuOpen) && cartOpen == old(cartOpen) && isScrolled == old(isScrolled)
    {
      quickViewProduct := None;
    }

    method ToggleMobileMenu()
      modifies this
      ensures mobileMenuOpen == !old(mobileMenuOpen)
      ensures authModalOpen == old(authModalOpen) && searchModalOpen == old(searchModalOpen)
      ensures quickViewProduct == old(quickViewProduct) && cartOpen == old(cartOpen) && isScrolled == old(isScrolled)
    {
      mobileMenuOpen := !mobileMenuOpen;
    }

    method ToggleCart()
      modifies this
      ensures cartOpen == !old(cartOpen)
      ensures authModalOpen == old(authModalOpen) && searchModalOpen == old(searchModalOpen)
      ensures quickViewProduct == old(quickViewProduct) && mobileMenuOpen == old(mobileMenuOpen) && isScrolled == old(isScrolled)
    {
      cartOpen := !cartOpen;
    }

    method SetScrolled(scrolled: bool)
      modifies this
      ensures isScrolled == scrolled
      ensures authModalOpen == old(authModalOpen) && searchModalOpen == old(searchModalOpen)
      ensures quickViewProduct == old(quickViewProduct) && mobileMenuOpen == old(mobileMenuOpen) && cartOpen == old(cartOpen)
    {
      isScrolled := scrolled;
    }
  }

  /** Toggling the mobile menu twice restores every field. */
  method ToggleMobileMenuTwice(ui: UIStore)
    modifies ui
    ensures ui.authModalOpen == old(ui.authModalOpen) && ui.searchModalOpen == old(ui.searchModalOpen)
    ensures ui.quickViewProduct == old(ui.quickViewProduct) && ui.isScrolled == old(ui.isScrolled)
    ensures ui.mobileMenuOpen == old(ui.mobileMenuOpen) && ui.cartOpen == old(ui.cartOpen)
  {
    ui.ToggleMobileMenu();
    ui.ToggleMobileMenu();
  }

  /** Toggling the cart twice restores every field. */
  method ToggleCartTwice(ui: UIStore)
    modifies ui
    ensures ui.authModalOpen == old(ui.authModalOpen) && ui.searchModalOpen == old(ui.searchModalOpen)
    ensures ui.quickViewProduct == old(ui.quickViewProduct) && ui.isScrolled == old(ui.isScrolled)
    ensures ui.mobileMenuOpen == old(ui.mobileMenuOpen) && ui.cartOpen == old(ui.cartOpen)
  {
    ui.ToggleCart();
    ui.ToggleCart();
  }

  /** Opening a quick view and closing it again leaves no product selected, whatever was there before. */
  method QuickViewRoundTrip(ui: UIStore, product: CartLines.Product)
    modifies ui
    ensures ui.quickViewProduct == None
    ensures ui.authModalOpen == old(ui.authModalOpen) && ui.searchModalOpen == old(ui.searchModalOpen)
    ensures ui.mobileMenuOpen == old(ui.mobileMenuOpen) && ui.cartOpen == old(ui.cartOpen) && ui.isScrolled == old(ui.isScrolled)
  {
    ui.OpenQuickView(product);
    ui.CloseQuickView();
  }
}
