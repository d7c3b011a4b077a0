/** The order-creation dialog: its zod schema and defaults, the preview
    request built from the form values, and the two-step flow in which a
    preview must exist before Confirm does anything. */
module OrderCreationDialog {
  import opened Forms

  /** The direction, order-type and currency lists come from modules outside
      this model. */
  datatype Enumerations = Enumerations(directions: set<string>, orderTypes: set<string>, currencies: set<string>)

  /** The form state: any field may be missing (`undefined`). */
  datatype OrderFormDraft = OrderFormDraft(
    direction: Option<string>,
    orderType: Option<string>,
    currency: Option<string>,
    assetId: Option<string>,
    quantity: Option<real>,
    limitValue: Option<real>,
    stopValue: Option<real>,
    allOrNothing: Option<bool>,
    margin: Option<bool>,
    accountId: Option<string>)

  /** The schema's output. */
  datatype OrderFormValues = OrderFormValues(
    direction: string,
    orderType: string,
    currency: string,
    assetId: string,
    quantity: real,
    limitValue: real,
    stopValue: real,
    allOrNothing: bool,
    margin: bool,
    accountId: string)

  datatype MonetaryAmount = MonetaryAmount(amount: real, currency: string)

  /** What is sent for a preview: the form values with the limit and stop
      values wrapped as amounts in the order's currency. */
  datatype OrderPreviewRequest = OrderPreviewRequest(
    direction: string,
    orderType: string,
    currency: string,
    assetId: string,
    quantity: real,
    limitValue: MonetaryAmount,
    stopValue: MonetaryAmount,
    allOrNothing: bool,
    margin: bool,
    accountId: string)

  /** The preview's fields that the dialog shows. */
  datatype OrderPreview = OrderPreview(orderType: string, quantity: real, approximatePrice: real)

  /** `defaultValues: {allOrNothing: false, margin: false}`. */
  function Defaults(): (d: OrderFormDraft)
    ensures d.allOrNothing == Some(false) && d.margin == Some(false)
    ensures d.quantity.None? && d.limitValue.None? && d.stopValue.None? && d.currency.None?
  {
    OrderFormDraft(None, None, None, None, None, None, None, Some(false), Some(false), None)
  }

  /** `orderFormSchema`. A missing number coerces to NaN, which fails. */
  predicate Accepts(d: OrderFormDraft, enums: Enumerations)
  {
    && d.direction.Some? && d.direction.value in enums.directions
    && d.orderType.Some? && d.orderType.value in enums.orderTypes
    && d.currency.Some? && d.currency.value in enums.currencies
    && d.assetId.Some? && NonEmpty(d.assetId.value)
    && d.quantity.Some? && d.quantity.value >= 1.0
    && d.limitValue.Some? && d.limitValue.value >= 0.0
    && d.stopValue.Some? && d.stopValue.value >= 0.0
    && d.allOrNothing.Some?
    && d.margin.Some?
    && d.accountId.Some? && NonEmpty(d.accountId.value)
  }

  /** Parsing: the values of an accepted draft, or nothing. */
  function Parse(d: OrderFormDraft, enums: Enumerations): (r: Option<OrderFormValues>)
    ensures r.Some? <==> Accepts(d, enums)
    ensures r.Some? ==> && r.value.quantity >= 1.0 && r.value.limitValue >= 0.0 && r.value.stopValue >= 0.0
                        && NonEmpty(r.value.assetId) && NonEmpty(r.value.accountId)
                        && r.value.currency in enums.currencies
    ensures r.Some? ==> Draft(r.value) == d
  {
    if !Accepts(d, enums) then None
    else
      Some(OrderFormValues(
        d.direction.value, d.orderType.value, d.currency.value, d.assetId.value,
        d.quantity.value, d.limitValue.value, d.stopValue.value,
        d.allOrNothing.value, d.margin.value, d.accountId.value))
  }

  /** The form state holding exactly these values. */
  function Draft(v: OrderFormValues): OrderFormDraft
  {
    OrderFormDraft(
      Some(v.direction), Some(v.orderType), Some(v.currency), Some(v.assetId),
      Some(v.quantity), Some(v.limitValue), Some(v.stopValue),
      Some(v.allOrNothing), Some(v.margin), Some(v.accountId))
  }

  /** The dialog has inputs for the asset, order type, direction and
      account only. Quantity, limit, stop and currency have neither an input
      nor a default, so whatever is entered the schema rejects the form. */
  lemma InputsAloneNeverAccepted(assetId: string, orderType: string, direction: string,
                                 accountId: string, enums: Enumerations)
    ensures Parse(Defaults().(assetId := Some(assetId), orderType := Some(orderType),
                              direction := Some(direction), accountId := Some(accountId)), enums).None?
  {
  }

  /** The form values a request carries, read back. */
  function FormValuesOf(req: OrderPreviewRequest): OrderFormValues
  {
    OrderFormValues(
      req.direction, req.orderType, req.currency, req.assetId, req.quantity,
      req.limitValue.amount, req.stopValue.amount, req.allOrNothing, req.margin, req.accountId)
  }

  /** `{...values, limitValue: {amount, currency}, stopValue: {amount, currency}}`:
      both amounts in the order's currency, every other field copied, so the
      form values can be read back from the request. */
  function PreviewRequest(values: OrderFormValues): (req: OrderPreviewRequest)
    ensures req.limitValue == MonetaryAmount(values.limitValue, values.currency)
    ensures req.stopValue == MonetaryAmount(values.stopValue, values.currency)
    ensures req.limitValue.currency == req.stopValue.currency == req.currency
    ensures FormValuesOf(req) == values
  {
    OrderPreviewRequest(
      values.direction, values.orderType, values.currency, values.assetId, values.quantity,
      MonetaryAmount(values.limitValue, values.currency),
      MonetaryAmount(values.stopValue, values.currency),
      values.allOrNothing, values.margin, values.accountId)
  }

  /** Different form values give different requests. */
  lemma PreviewRequestInjective(v: OrderFormValues, w: OrderFormValues)
    requires PreviewRequest(v) == PreviewRequest(w)
    ensures v == w
  {
    assert FormValuesOf(PreviewRequest(v)) == v;
  }

  /** The dialog's state. The callbacks `onPreview`, `onConfirm` and
      `onOpenChange` belong to the caller; what they were called with is
      recorded, in order. */
  class Dialog {
    var showPreview: bool
    var previewData: Option<OrderPreview>
    var previewRequests: seq<OrderPreviewRequest>
    var confirmations: seq<OrderFormDraft>
    var openChanges: seq<bool>

    /** A preview is only held after one was requested, and an order is only
        confirmed once a preview is held. */
    ghost predicate Valid()
      reads this
    {
      && (previewData.Some? ==> |previewRequests| > 0)
      && (|confirmations| > 0 ==> previewData.Some?)
    }

    constructor ()
      ensures Valid()
      ensures !showPreview && previewData.None?
      ensures previewRequests == [] && confirmations == [] && openChanges == []
    {
      showPreview := false;
      previewData := None;
      previewRequests := [];
      confirmations := [];
      openChanges := [];
    }

    /** `handleSubmit`: send the preview request; when it answers, hold the
        preview and show it. A request that fails (`None`) changes no state. */
    method HandleSubmit(values: OrderFormValues, response: Option<OrderPreview>)
      requires Valid()
      modifies this
      ensures Valid()
      ensures previewRequests == old(previewRequests) + [PreviewRequest(values)]
      ensures response.Some? ==> previewData == response && showPreview
      ensures response.None? ==> previewData == old(previewData) && showPreview == old(showPreview)
      ensures confirmations == old(confirmations) && openChanges == old(openChanges)
    {
      previewRequests := previewRequests + [PreviewRequest(values)];
      if response.Some? {
        previewData := response;
        showPreview := true;
      }
    }

    /** `handleConfirm`: nothing without a preview; otherwise confirm the
        form's current values (not the request), hide the preview and ask
        the caller to close the dialog. The preview itself is kept. */
    method HandleConfirm(current: OrderFormDraft)
      requires Valid()
      modifies this
      ensures Valid()
      ensures old(previewData).None? ==>
                && showPreview == old(showPreview) && previewData == old(previewData)
                && previewRequests == old(previewRequests) && confirmations == old(confirmations)
                && openChanges == old(openChanges)
      ensures old(previewData).Some? ==>
                && confirmations == old(confirmations) + [current]
                && !showPreview
                && openChanges == old(openChanges) + [false]
                && previewData == old(previewData) && previewRequests == old(previewRequests)
    {
      if previewData.None? {
        return;
      }
      confirmations := confirmations + [current];
      showPreview := false;
      openChanges := openChanges + [false];
    }

    /** The preview's Back button and its own open/close handler. */
    method SetShowPreview(show: bool)
      requires Valid()
      modifies this`showPreview
      ensures Valid()
      ensures showPreview == show
    {
      showPreview := show;
    }

    /** The form's Cancel button: `onOpenChange(false)`. */
    method Cancel()
      requires Valid()
      modifies this`openChanges
      ensures Valid()
      ensures openChanges == old(openChanges) + [false]
    {
      openChanges := openChanges + [false];
    }
  }

  /** In every reachable state, an order confirmed at all was confirmed
      after a preview was requested and answered. */
  lemma ConfirmedOnlyAfterPreview(d: Dialog)
    requires d.Valid()
    ensures |d.confirmations| > 0 ==> d.previewData.Some? && |d.previewRequests| > 0
  {
  }

  /** Confirm before any preview does nothing; after a successful preview it
      confirms the current form values once. */
  method PreviewThenConfirm(values: OrderFormValues, preview: OrderPreview, current: OrderFormDraft)
    returns (early: seq<OrderFormDraft>, late: seq<OrderFormDraft>, sent: seq<OrderPreviewRequest>)
    ensures early == []
    ensures late == [current]
    ensures sent == [PreviewRequest(values)]
  {
    var d := new Dialog();
    d.HandleConfirm(current);
    early := d.confirmations;
    d.HandleSubmit(values, Some(preview));
    d.HandleConfirm(current);
    late := d.confirmations;
    sent := d.previewRequests;
  }
}
