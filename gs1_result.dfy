/** The GS1 result page: after the gateway redirects the payer back, it asks
    the inquiry route for the invoice in the URL and derives the status it
    shows. */
module Gs1Result {
  import opened Common
  import opened Store
  import Inquiry

  /** The status the page shows. */
  datatype PayStatus = PaySuccess | PayFailed | PayPending

  /** What the inquiry call produced: it threw (network, JSON body), or the
      route answered. */
  datatype Fetched = FetchThrew | Answered(reply: Inquiry.InquiryReply)

  /** The status chosen for the URL's `invoiceNo` and `respCode`; `None` when
      the page makes no inquiry and leaves the status as it was. */
  function ChooseStatus(invoiceNo: Option<string>, urlRespCode: Option<string>, fetched: Fetched): (r: Option<PayStatus>)
    ensures r.None? <==> !Filled(invoiceNo)
    // an answered inquiry decides by its own code
    ensures Filled(invoiceNo) && fetched.Answered? && fetched.reply.InquiryOk? ==>
      r == Some(if fetched.reply.data.respCode == "0000" then PaySuccess else PayFailed)
    // an unsuccessful one falls back to the URL's code
    ensures Filled(invoiceNo) && fetched.Answered? && !fetched.reply.InquiryOk? ==>
      r == Some(if urlRespCode == Some("2000") then PayPending else PayFailed)
    ensures Filled(invoiceNo) && fetched == FetchThrew ==> r == Some(PayFailed)
    // "pending" comes only from the fallback
    ensures r == Some(PayPending) ==> urlRespCode == Some("2000") && fetched.Answered? && !fetched.reply.InquiryOk?
  {
    if !Filled(invoiceNo) then None
    else match fetched
      case FetchThrew => Some(PayFailed)
      case Answered(reply) =>
        if reply.InquiryOk? then
          if reply.data.respCode == "0000" then Some(PaySuccess) else Some(PayFailed)
        else if urlRespCode == Some("2000") then Some(PayPending)
        else Some(PayFailed)
  }

  /** The page component's state. */
  class ResultView {
    var isProcessing: bool
    var paymentStatus: Option<PayStatus>
    var paymentDetails: Option<Inquiry.InquiryData>

    constructor ()
      ensures isProcessing && paymentStatus.None? && paymentDetails.None?
    {
      isProcessing := true;
      paymentStatus := None;
      paymentDetails := None;
    }

    /** `processPaymentResult`: set the status (and, on a successful inquiry,
        the details), then leave the processing state whatever happened. */
    method ProcessPaymentResult(invoiceNo: Option<string>, urlRespCode: Option<string>, fetched: Fetched)
      modifies this
      ensures !isProcessing
      ensures paymentStatus ==
        if Filled(invoiceNo) then ChooseStatus(invoiceNo, urlRespCode, fetched) else old(paymentStatus)
      ensures paymentDetails ==
        if Filled(invoiceNo) && fetched.Answered? && fetched.reply.InquiryOk? then Some(fetched.reply.data)
        else old(paymentDetails)
    {
      if Filled(invoiceNo) {
        match fetched {
          case FetchThrew =>
            paymentStatus := Some(PayFailed);
          case Answered(reply) =>
            if reply.InquiryOk? {
              paymentDetails := Some(reply.data);
              if reply.data.respCode == "0000" {
                paymentStatus := Some(PaySuccess);
              } else {
                paymentStatus := Some(PayFailed);
              }
            } else if urlRespCode == Some("2000") {
              paymentStatus := Some(PayPending);
            } else {
              paymentStatus := Some(PayFailed);
            }
        }
      }
      isProcessing := false;
    }
  }

  /** Read against the stored row: a completed row shows success, and a row
      still pending or failed shows failure; a missing row falls back to the
      URL's code. */
  lemma StatusOfStoredRow(t: Tables, invoiceNo: string, urlRespCode: Option<string>)
    requires invoiceNo != ""
    ensures var reply := Inquiry.Inquire(t, Some(invoiceNo));
      var shown := ChooseStatus(Some(invoiceNo), urlRespCode, Answered(reply)).value;
      && (reply.InquiryOk? ==> (shown == PaySuccess <==> reply.data.paymentStatus == Completed))
      && (reply.InquiryOk? ==> shown != PayPending)
      && (!Inquiry.AnyExact(t.transactions, invoiceNo) ==>
            shown == if urlRespCode == Some("2000") then PayPending else PayFailed)
  {
    var reply := Inquiry.Inquire(t, Some(invoiceNo));
    if reply.InquiryOk? {
      assert reply.data.respCode == Inquiry.RespCode(reply.data.paymentStatus);
    }
  }
}
