/** The payment dialog: the offered payment methods, the selected one
    (the wallet at first), and the decision taken when the customer pays.
    A QR method shows a code first and completes when its timer fires;
    every other method completes at once. Completion schedules the
    success callback, which receives the method that was selected when
    the customer paid. Timers are returned as pending events. */
module PaymentModal {
  import opened Seqs
  import opened Text
  import opened Types

  datatype MethodKind = WalletKind | QrKind | CardKind

  datatype PaymentMethod = PaymentMethod(id: string, kind: MethodKind, name: string)

  const WalletId: string := "wallet"
  const QrPrefix: string := "qr_"

  /** The methods offered, in display order. */
  const Methods: seq<PaymentMethod> := [
    PaymentMethod("wallet", WalletKind, "Ví CinemaBook"),
    PaymentMethod("qr_momo", QrKind, "MoMo QR"),
    PaymentMethod("qr_zalopay", QrKind, "ZaloPay QR"),
    PaymentMethod("qr_banking", QrKind, "Banking QR"),
    PaymentMethod("card", CardKind, "Thẻ tín dụng/ghi nợ")
  ]

  function MethodIds(ms: seq<PaymentMethod>): (ids: seq<string>)
    ensures |ids| == |ms| && forall i :: 0 <= i < |ms| ==> ids[i] == ms[i].id
  {
    if ms == [] then [] else [ms[0].id] + MethodIds(ms[1..])
  }

  /** The offered ids are wallet, the three QR wallets and card; exactly
      the methods of the QR kind carry the "qr_" prefix. */
  lemma OfferedMethods()
    ensures MethodIds(Methods) == ["wallet", "qr_momo", "qr_zalopay", "qr_banking", "card"]
    ensures forall m :: m in Methods ==> (m.kind == QrKind <==> StartsWith(m.id, QrPrefix))
  {
    assert MethodIds(Methods)[0] == "wallet";
    forall i | 0 <= i < |Methods|
      ensures Methods[i].kind == QrKind <==> StartsWith(Methods[i].id, QrPrefix)
    {
      var id := Methods[i].id;
      if i == 0 || i == 4 {
        assert id[2] != QrPrefix[2];
      } else {
        assert id[..3] == QrPrefix;
      }
    }
  }

  /** What the dialog has scheduled: nothing, the end of the QR stage, or
      the success callback, each carrying the method id it captured. */
  datatype Pending = NoTimer | QrTimer(methodId: string) | SuccessTimer(methodId: string)

  /** The decision of `handlePayment`: a wallet payment that the balance
      does not cover is refused (an equal balance suffices); a "qr_"
      method passes through the QR stage; any other method completes.
      The captured method is the one selected. */
  function PaymentOutcome(methodId: string, userBalance: real, totalPrice: real): (p: Pending)
    ensures p == NoTimer <==> methodId == WalletId && userBalance < totalPrice
    ensures p.QrTimer? <==> p != NoTimer && StartsWith(methodId, QrPrefix)
    ensures p != NoTimer ==> p.methodId == methodId
  {
    if methodId == WalletId && userBalance < totalPrice then NoTimer
    else if StartsWith(methodId, QrPrefix) then QrTimer(methodId)
    else SuccessTimer(methodId)
  }

  /** The method handed to the success callback once every pending timer
      of `p` has fired. */
  function CallbackArgument(p: Pending): Option<string>
  {
    match p
    case NoTimer => None
    case QrTimer(m) => Some(m)
    case SuccessTimer(m) => Some(m)
  }

  /** A payment that is not refused ends in the success callback with the
      selected method, whichever branch it takes. */
  lemma PaymentReachesCallback(methodId: string, userBalance: real, totalPrice: real)
    ensures CallbackArgument(PaymentOutcome(methodId, userBalance, totalPrice))
      == (if methodId == WalletId && userBalance < totalPrice then None else Some(methodId))
  {
  }

  class PaymentModalState {
    const booking: Booking
    const userBalance: real
    var selectedMethod: string
    var showQR: bool
    var paymentComplete: bool

    constructor (booking: Booking, userBalance: real)
      ensures this.booking == booking && this.userBalance == userBalance
      ensures selectedMethod == WalletId && !showQR && !paymentComplete
    {
      this.booking := booking;
      this.userBalance := userBalance;
      selectedMethod := WalletId;
      showQR := false;
      paymentComplete := false;
    }

    /** A choice among the offered methods. */
    method SelectMethod(id: string)
      requires id in MethodIds(Methods)
      modifies this
      ensures selectedMethod == id
      ensures showQR == old(showQR) && paymentComplete == old(paymentComplete)
    {
      selectedMethod := id;
    }

    /** `handlePayment`. */
    method HandlePayment() returns (timer: Pending)
      modifies this
      ensures timer == PaymentOutcome(selectedMethod, userBalance, booking.totalPrice)
      ensures selectedMethod == old(selectedMethod)
      ensures timer == NoTimer ==> showQR == old(showQR) && paymentComplete == old(paymentComplete)
      ensures timer.QrTimer? ==> showQR && paymentComplete == old(paymentComplete)
      ensures timer.SuccessTimer? ==> paymentComplete && showQR == old(showQR)
    {
      if selectedMethod == WalletId && userBalance < booking.totalPrice {
        return NoTimer;
      }
      if StartsWith(selectedMethod, QrPrefix) {
        showQR := true;
        timer := QrTimer(selectedMethod);
      } else {
        paymentComplete := true;
        timer := SuccessTimer(selectedMethod);
      }
    }

    /** The end of the QR stage: the code is hidden, the payment shown as
        complete, and the success callback scheduled with the method
        captured when the customer paid, even if the selection changed
        since. */
    method QrTimerFires(timer: Pending) returns (next: Pending)
      requires timer.QrTimer?
      modifies this
      ensures !showQR && paymentComplete && selectedMethod == old(selectedMethod)
      ensures next == SuccessTimer(timer.methodId)
    {
      showQR := false;
      paymentComplete := true;
      next := SuccessTimer(timer.methodId);
    }
  }
}
