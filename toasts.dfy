/**
 * The toast notifications (movies-web/src/context/ToastContext.jsx): a list
 * of `{ id, message, type }` that `showToast` appends to and that the
 * dismissal timer filters by id. The timer itself is not modelled: its
 * firing is the explicit operation `Dismiss`.
 */
module Toasts {
  import opened Wrappers
  import Js
  import ReactContext

  datatype Toast = Toast(id: string, message: string, kind: string)

  const DefaultKind := "info"
  /** Milliseconds before a toast is dismissed, unless `showToast` is given another timeout. */
  const DefaultTimeout: int := 3000

  /** The colour family a toast is drawn in. */
  datatype Tone = Green | Red | Slate

  /** `t.id !== id`, the test of the dismissal filter. */
  function KeepOthers(id: string): Toast -> bool {
    (t: Toast) => t.id != id
  }

  /** `prev.filter((t) => t.id !== id)`. */
  function Dismissed(toasts: seq<Toast>, id: string): (r: seq<Toast>)
    ensures forall i :: 0 <= i < |r| ==> r[i] in toasts && r[i].id != id
    ensures forall i :: 0 <= i < |toasts| && toasts[i].id != id ==> toasts[i] in r
    ensures Js.IsSubsequence(r, toasts)
    ensures forall t :: multiset(r)[t] == if t.id != id then multiset(toasts)[t] else 0
  {
    Js.FilterIsSubsequence(toasts, KeepOthers(id));
    Js.FilterMultiset(toasts, KeepOthers(id));
    Js.Filter(toasts, KeepOthers(id))
  }

  /** Dismissing an id twice is dismissing it once. */
  lemma DismissIdempotent(toasts: seq<Toast>, id: string)
    ensures Dismissed(Dismissed(toasts, id), id) == Dismissed(toasts, id)
  {
    Js.FilterIdempotent(toasts, KeepOthers(id));
  }

  /** Dismissing an id no toast carries changes nothing. */
  lemma DismissAbsent(toasts: seq<Toast>, id: string)
    requires forall i :: 0 <= i < |toasts| ==> toasts[i].id != id
    ensures Dismissed(toasts, id) == toasts
  {
    Js.FilterKeepsAll(toasts, KeepOthers(id));
  }

  /**
   * Dismissal acts on each part of the list separately, so the toasts that
   * stay keep their relative order.
   */
  lemma DismissAppend(a: seq<Toast>, b: seq<Toast>, id: string)
    ensures Dismissed(a + b, id) == Dismissed(a, id) + Dismissed(b, id)
  {
    Js.FilterAppend(a, b, KeepOthers(id));
  }

  /** A toast shown with a fresh id and then dismissed leaves the list as it was. */
  lemma ShowThenDismiss(toasts: seq<Toast>, t: Toast)
    requires forall i :: 0 <= i < |toasts| ==> toasts[i].id != t.id
    ensures Dismissed(toasts + [t], t.id) == toasts
  {
    DismissAppend(toasts, [t], t.id);
    DismissAbsent(toasts, t.id);
    assert Js.Filter([t], KeepOthers(t.id)) == [];
  }

  /** The style of a toast: green for 'success', red for 'error', slate for anything else. */
  function ToneOf(kind: string): (tone: Tone)
    ensures tone == Green <==> kind == "success"
    ensures tone == Red <==> kind == "error"
  {
    if kind == "success" then Green
    else if kind == "error" then Red
    else Slate
  }

  /** The context value exposes `showToast`; `useToast` throws outside the provider. */
  function UseToast<C>(ctx: Option<C>): (r: Result<C, string>)
    ensures r.Err? <==> ctx.None?
    ensures ctx.Some? ==> r == Ok(ctx.value)
    ensures ctx.None? ==> r.error == "useToast must be used within ToastProvider"
  {
    ReactContext.RequireProvider(ctx, "useToast must be used within ToastProvider")
  }

  class ToastProvider {
    var toasts: seq<Toast>

    constructor ()
      ensures toasts == []
    {
      toasts := [];
    }

    /**
     * `showToast(message, type, timeout)` with the id the caller's
     * `crypto.randomUUID()` or `Date.now()` produced; a missing type or
     * timeout takes its default. Returns the delay of the dismissal timer.
     */
    method ShowToast(id: string, message: string, kind: Option<string>, timeout: Option<int>) returns (delay: int)
      modifies this
      ensures toasts == old(toasts) + [Toast(id, message, if kind.Some? then kind.value else DefaultKind)]
      ensures delay == if timeout.Some? then timeout.value else DefaultTimeout
    {
      var k := if kind.Some? then kind.value else DefaultKind;
      toasts := toasts + [Toast(id, message, k)];
      delay := if timeout.Some? then timeout.value else DefaultTimeout;
    }

    /** The dismissal timer of toast `id` firing. */
    method Dismiss(id: string)
      modifies this
      ensures toasts == Dismissed(old(toasts), id)
    {
      toasts := Dismissed(toasts, id);
    }
  }
}
