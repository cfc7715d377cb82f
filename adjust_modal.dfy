/** The stock-adjustment modal of the inventory page: the preview of the new
    level, the low-level warning, and the submit guard. */
module AdjustModal {
  import opened Common

  datatype Direction = In | Out

  /** The `newQuantity` preview: current plus the quantity for "in", else the
      current minus the quantity clamped at 0. */
  function Preview(current: real, dir: Direction, quantity: int): (r: real)
    ensures dir == In ==> r == current + quantity as real
    ensures dir == Out ==> r >= 0.0 && r >= current - quantity as real
    ensures dir == Out ==> r == 0.0 || r == current - quantity as real
  {
    match dir
    case In => current + quantity as real
    case Out => if current - quantity as real < 0.0 then 0.0 else current - quantity as real
  }

  /** The red colour and the "Below reorder level" banner. */
  predicate ShowWarning(preview: real, reorderLevel: real)
  {
    preview <= reorderLevel
  }

  /** `parseInt(value) || 0`, on the already-parsed number (`None` is NaN). */
  function QuantityFromInput(parsed: Option<int>): (q: int)
    ensures parsed.None? ==> q == 0
    ensures parsed.Some? ==> q == parsed.value
  {
    if parsed.Some? then parsed.value else 0
  }

  /** The confirm button's `disabled`. */
  predicate SubmitDisabled(loading: bool, quantity: int)
  {
    loading || quantity <= 0
  }

  /** The body posted to `/inventory/{id}/adjust`; an empty note is omitted. */
  datatype AdjustPayload = AdjustPayload(itemId: int, dir: Direction, quantity: int, notes: Option<string>)

  /** How the request went: accepted, or failed with an optional server message. */
  datatype PostResult = Accepted | PostFailed(message: Option<string>)

  const GuardMessage: string := "Quantity must be greater than 0"
  const DefaultFailure: string := "Failed to adjust inventory"

  /** With a non-negative current level, the preview is never negative for an
      enabled submission. */
  lemma PreviewNonNegative(current: real, dir: Direction, quantity: int)
    requires current >= 0.0 && !SubmitDisabled(false, quantity)
    ensures Preview(current, dir, quantity) >= 0.0
  {
  }

  /** The guard matters: a negative typed quantity (parseInt keeps the sign)
      makes the "in" preview negative. */
  lemma NegativeInputNegativePreview()
    ensures QuantityFromInput(Some(-5)) == -5
    ensures Preview(2.0, In, QuantityFromInput(Some(-5))) == -3.0
    ensures SubmitDisabled(false, QuantityFromInput(Some(-5)))
  {
  }

  /** The warning is inclusive: a preview exactly at the reorder level warns,
      one unit above does not. Taking out at least the whole stock always
      warns when the reorder level is non-negative, since the preview clamps
      to 0; putting stock in warns exactly when the raised level is still at
      or below the reorder level. */
  lemma WarningAtReorderLevel(current: real, quantity: int, reorderLevel: real)
    ensures Preview(current, In, quantity) == reorderLevel ==> ShowWarning(Preview(current, In, quantity), reorderLevel)
    ensures Preview(current, Out, quantity) == reorderLevel ==> ShowWarning(Preview(current, Out, quantity), reorderLevel)
    ensures !ShowWarning(reorderLevel + 1.0, reorderLevel)
    ensures quantity as real >= current && reorderLevel >= 0.0 ==> ShowWarning(Preview(current, Out, quantity), reorderLevel)
    ensures ShowWarning(Preview(current, In, quantity), reorderLevel) <==> current + quantity as real <= reorderLevel
    ensures current - quantity as real > reorderLevel ==> !ShowWarning(Preview(current, Out, quantity), reorderLevel)
  {
  }

  /** Unparseable input becomes 0, which disables the button. */
  lemma UnparseableBlocks(loading: bool)
    ensures SubmitDisabled(loading, QuantityFromInput(None))
  {
  }

  class AdjustModalState {
    const itemId: int
    const current: real
    const reorderLevel: real
    var dir: Direction
    var quantity: int
    var notes: string
    var loading: bool
    var open: bool

    constructor (id: int, cur: real, level: real)
      ensures itemId == id && current == cur && reorderLevel == level
      ensures dir == In && quantity == 1 && notes == "" && !loading && open
    {
      itemId, current, reorderLevel := id, cur, level;
      dir, quantity, notes, loading, open := In, 1, "", false, true;
    }

    /** The quantity input's `onChange`. */
    method SetQuantity(parsed: Option<int>)
      modifies this
      ensures quantity == QuantityFromInput(parsed)
      ensures dir == old(dir) && notes == old(notes) && loading == old(loading) && open == old(open)
    {
      quantity := if parsed.Some? then parsed.value else 0;
    }

    /** `handleSubmit`: a quantity of 0 or less only raises the alert; otherwise
        one request is posted, success closes the modal, failure alerts the
        server message or the default, and `loading` ends false either way. */
    method HandleSubmit(result: PostResult) returns (sent: Option<AdjustPayload>, alert: Option<string>)
      modifies this
      ensures dir == old(dir) && quantity == old(quantity) && notes == old(notes)
      ensures old(quantity) <= 0 ==>
        sent.None? && alert == Some(GuardMessage) && loading == old(loading) && open == old(open)
      ensures old(quantity) > 0 ==>
        && sent == Some(AdjustPayload(itemId, dir, quantity, if notes == "" then None else Some(notes)))
        && !loading
        && (result.Accepted? ==> alert.None? && !open)
        && (result.PostFailed? ==> alert == Some(FailureMessage(result.message, DefaultFailure)) && open == old(open))
    {
      if quantity <= 0 {
        return None, Some(GuardMessage);
      }
      loading := true;
      sent := Some(AdjustPayload(itemId, dir, quantity, if notes == "" then None else Some(notes)));
      match result {
        case Accepted =>
          alert := None;
          open := false;
        case PostFailed(message) =>
          alert := Some(FailureMessage(message, DefaultFailure));
      }
      loading := false;
    }
  }
}
