/**
 * The toast notification state (dandi/hooks/use-toast.ts): one message with
 * a variant and a visibility flag. `showToast` replaces the whole state,
 * `hideToast` only clears the flag.
 */
module Toast {
  import Wrappers

  /** The three variants of dandi/types/toast.ts. */
  datatype ToastVariant = Success | Warning | Error

  datatype ToastState = ToastState(message: string, variant: ToastVariant, isVisible: bool)

  /** Before anything is shown: an empty, hidden success toast. */
  const InitialToast: ToastState := ToastState("", Success, false)

  /** The state `showToast(message, variant)` sets; an omitted variant is "success". */
  function Shown(message: string, variant: Wrappers.Option<ToastVariant>): (t: ToastState)
    ensures t.isVisible && t.message == message
    ensures variant.Some? ==> t.variant == variant.value
    ensures variant.None? ==> t.variant == Success
  {
    ToastState(message, variant.GetOr(Success), true)
  }

  /** The state `hideToast` sets: the previous one, no longer visible. */
  function Hidden(t: ToastState): (r: ToastState)
    ensures !r.isVisible && r.message == t.message && r.variant == t.variant
  {
    t.(isVisible := false)
  }

  /** Hiding twice is hiding once. */
  lemma HideIdempotent(t: ToastState)
    ensures Hidden(Hidden(t)) == Hidden(t)
  {
  }

  /** Hiding a shown toast keeps its text and variant. */
  lemma HideAfterShow(message: string, variant: Wrappers.Option<ToastVariant>)
    ensures Hidden(Shown(message, variant)) == ToastState(message, variant.GetOr(Success), false)
  {
  }

  /** The hook's state. */
  class ToastStore {
    var toast: ToastState

    constructor()
      ensures toast == InitialToast
    {
      toast := InitialToast;
    }

    /** `showToast`. */
    method ShowToast(message: string, variant: Wrappers.Option<ToastVariant>)
      modifies this
      ensures toast == Shown(message, variant)
    {
      toast := ToastState(message, variant.GetOr(Success), true);
    }

    /** `hideToast`. */
    method HideToast()
      modifies this
      ensures toast == Hidden(old(toast))
    {
      toast := toast.(isVisible := false);
    }
  }
}
