/** The page: a single state field choosing which of the two screens is
    shown, overwritten by the screens' callbacks. */
module Page {
  import opened Wrappers
  import CryptoToCashWidget
  import RecipientDetails

  datatype Screen = Widget | Recipient

  class Home {
    var currentScreen: Screen

    /** The page opens on the conversion screen. */
    constructor ()
      ensures currentScreen == Widget
    {
      currentScreen := Widget;
    }

    /** The conversion screen's `onConvert`: the payload is ignored and the
        recipient screen is shown. */
    method OnConvert(data: CryptoToCashWidget.ConvertData)
      modifies this
      ensures currentScreen == Recipient
    {
      currentScreen := Recipient;
    }

    /** The recipient screen's `onBack`: back to the conversion screen. */
    method OnBack()
      modifies this
      ensures currentScreen == Widget
    {
      currentScreen := Widget;
    }

    /** The recipient screen's `onNext` does nothing. */
    method OnNext(data: RecipientDetails.NextData)
      ensures currentScreen == old(currentScreen)
    {
    }
  }

  /** The delay of a waiting conversion ends and its payload, when there is
      one, is delivered to the page: the page leaves the conversion screen
      only for a submission that passed validation. */
  method ConversionDelayEnds(home: Home, widget: CryptoToCashWidget.Widget) returns (delivered: Option<CryptoToCashWidget.ConvertData>)
    requires widget.Valid()
    modifies home, widget
    ensures widget.Valid()
    ensures delivered.Some? ==> CryptoToCashWidget.ValidSnapshot(delivered.value)
    ensures delivered.Some? <==> old(widget.pendingConverts) != []
    ensures delivered.Some? ==> home.currentScreen == Recipient
    ensures delivered.None? ==> home.currentScreen == old(home.currentScreen)
  {
    delivered := widget.CompleteConvert();
    if delivered.Some? {
      home.OnConvert(delivered.value);
    }
  }

  /** From a fresh page, a valid conversion shows the recipient screen and
      "back" returns to the conversion screen. */
  method FlowExample(wallet: CryptoToCashWidget.Wallet) {
    var home := new Home();
    var widget := new CryptoToCashWidget.Widget();
    widget.PickWallet(wallet);
    widget.PickPayoutMethod("Bank Account");
    assert widget.payFrom.Some? && widget.payTo != "";
    var ok := widget.HandleConvert();
    assert ok;
    var delivered := ConversionDelayEnds(home, widget);
    assert home.currentScreen == Recipient;
    home.OnBack();
    assert home.currentScreen == Widget;
  }
}
