/**
 * The toast list of contexts/ToastContext.tsx. Identifiers are built from
 * the clock and a random number in the source; here they are an input.
 */
module ToastContext {
  import opened Common

  datatype ToastType = Success | Error | Info | Warning

  datatype Toast = Toast(
    id: string, toastType: ToastType, title: string, description: Option<string>, duration: int)

  /** `duration: number = 5000` */
  const DefaultDuration: int := 5000

  /** The toast list after `dismiss(id)`. */
  function WithoutToast(toasts: seq<Toast>, id: string): seq<Toast> {
    Filter(toasts, (t: Toast) => t.id != id)
  }

  /**
   * `dismiss(id)` removes every toast carrying the id and keeps the others;
   * an id that no toast carries changes nothing.
   */
  lemma DismissContents(toasts: seq<Toast>, id: string, t: Toast)
    ensures t in WithoutToast(toasts, id) <==> t in toasts && t.id != id
    ensures (forall i :: 0 <= i < |toasts| ==> toasts[i].id != id) ==> WithoutToast(toasts, id) == toasts
  {
    FilterKeeps(toasts, (x: Toast) => x.id != id, t);
    if forall i :: 0 <= i < |toasts| ==> toasts[i].id != id {
      FilterAll(toasts, (x: Toast) => x.id != id);
    }
  }

  /** Dismissing keeps the order of the remaining toasts: from `a + b` it dismisses in each part. */
  lemma DismissKeepsOrder(a: seq<Toast>, b: seq<Toast>, id: string)
    ensures WithoutToast(a + b, id) == WithoutToast(a, id) + WithoutToast(b, id)
  {
    FilterConcat(a, b, (x: Toast) => x.id != id);
  }

  class Toasts {
    var toasts: seq<Toast>

    constructor ()
      ensures toasts == []
    {
      toasts := [];
    }

    /** `showToast`; `None` for `duration` is an omitted argument. */
    method ShowToast(id: string, toastType: ToastType, title: string, description: Option<string>, duration: Option<int>)
      modifies this
      ensures toasts == old(toasts) + [Toast(id, toastType, title, description, duration.GetOr(DefaultDuration))]
    {
      toasts := toasts + [Toast(id, toastType, title, description, duration.GetOr(DefaultDuration))];
    }

    method ShowSuccess(id: string, title: string, description: Option<string>, duration: Option<int>)
      modifies this
      ensures toasts == old(toasts) + [Toast(id, Success, title, description, duration.GetOr(DefaultDuration))]
    {
      ShowToast(id, Success, title, description, duration);
    }

    method ShowError(id: string, title: string, description: Option<string>, duration: Option<int>)
      modifies this
      ensures toasts == old(toasts) + [Toast(id, Error, title, description, duration.GetOr(DefaultDuration))]
    {
      ShowToast(id, Error, title, description, duration);
    }

    method ShowInfo(id: string, title: string, description: Option<string>, duration: Option<int>)
      modifies this
      ensures toasts == old(toasts) + [Toast(id, Info, title, description, duration.GetOr(DefaultDuration))]
    {
      ShowToast(id, Info, title, description, duration);
    }

    method ShowWarning(id: string, title: string, description: Option<string>, duration: Option<int>)
      modifies this
      ensures toasts == old(toasts) + [Toast(id, Warning, title, description, duration.GetOr(DefaultDuration))]
    {
      ShowToast(id, Warning, title, description, duration);
    }

    method Dismiss(id: string)
      modifies this
      ensures toasts == WithoutToast(old(toasts), id)
    {
      toasts := WithoutToast(toasts, id);
    }

    method DismissAll()
      modifies this
      ensures toasts == []
    {
      toasts := [];
    }
  }
}
