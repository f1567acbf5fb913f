/**
 * The toast store behind `useToast`: a list of toasts, one appended per `toast` call with
 * the default variant and duration filled in, and `dismiss` removing every toast with an id.
 *
 * The random id is an input (`freshId`), and the auto-dismiss timer is returned as the delay
 * after which the caller's `dismiss(id)` runs.
 */
module Toasts {
  import opened Wrappers

  const DEFAULT_VARIANT := "default"
  const DEFAULT_DURATION := 5000

  /** A duration in milliseconds, or `Number.POSITIVE_INFINITY` for a toast that stays. */
  datatype Duration = Millis(ms: int) | Forever

  datatype ToastEntry = ToastEntry(id: string, title: string, description: string, variant: string, duration: Duration)

  /** `toasts.filter(toast => toast.id !== id)` */
  function WithoutToast(toasts: seq<ToastEntry>, id: string): (r: seq<ToastEntry>)
    ensures |r| <= |toasts|
  {
    if toasts == [] then []
    else (if toasts[0].id == id then [] else [toasts[0]]) + WithoutToast(toasts[1..], id)
  }

  /** Exactly the toasts with another id stay. */
  lemma {:induction false} WithoutToastMembers(toasts: seq<ToastEntry>, id: string)
    ensures forall t :: t in WithoutToast(toasts, id) <==> t in toasts && t.id != id
  {
    if toasts != [] {
      WithoutToastMembers(toasts[1..], id);
      assert toasts == [toasts[0]] + toasts[1..];
    }
  }

  /** When no toast has the id, dismissing it changes nothing. */
  lemma {:induction false} WithoutToastKeepsAll(toasts: seq<ToastEntry>, id: string)
    requires forall t | t in toasts :: t.id != id
    ensures WithoutToast(toasts, id) == toasts
  {
    if toasts != [] {
      WithoutToastKeepsAll(toasts[1..], id);
    }
  }

  /** Dismissing looks at each toast on its own: a toast appended later is kept or dropped by its own id. */
  lemma {:induction false} WithoutToastAppend(toasts: seq<ToastEntry>, more: seq<ToastEntry>, id: string)
    ensures WithoutToast(toasts + more, id) == WithoutToast(toasts, id) + WithoutToast(more, id)
  {
    if toasts == [] {
      assert toasts + more == more;
    } else {
      assert (toasts + more)[1..] == toasts[1..] + more;
      WithoutToastAppend(toasts[1..], more, id);
    }
  }

  /** Dismissing twice is dismissing once. */
  lemma WithoutToastIdempotent(toasts: seq<ToastEntry>, id: string)
    ensures WithoutToast(WithoutToast(toasts, id), id) == WithoutToast(toasts, id)
  {
    WithoutToastMembers(toasts, id);
    WithoutToastKeepsAll(WithoutToast(toasts, id), id);
  }

  /** Dismissing two ids in either order gives the same list. */
  lemma {:induction false} WithoutToastCommutes(toasts: seq<ToastEntry>, a: string, b: string)
    ensures WithoutToast(WithoutToast(toasts, a), b) == WithoutToast(WithoutToast(toasts, b), a)
  {
    if toasts != [] {
      var head := [toasts[0]];
      assert toasts == head + toasts[1..];
      WithoutToastAppend(head, toasts[1..], a);
      WithoutToastAppend(head, toasts[1..], b);
      WithoutToastAppend(WithoutToast(head, a), WithoutToast(toasts[1..], a), b);
      WithoutToastAppend(WithoutToast(head, b), WithoutToast(toasts[1..], b), a);
      WithoutToastCommutes(toasts[1..], a, b);
    }
  }

  /** Dismissing the newest toast, when no older one has its id, restores the older list. */
  lemma {:induction false} DismissNewest(before: seq<ToastEntry>, t: ToastEntry)
    requires forall u | u in before :: u.id != t.id
    ensures WithoutToast(before + [t], t.id) == before
  {
    WithoutToastAppend(before, [t], t.id);
    WithoutToastKeepsAll(before, t.id);
    assert WithoutToast([t], t.id) == [] by {
      assert [t][1..] == [];
    }
  }

  /**
   * The auto-dismiss of a toast whose id no other toast shares takes the list back to what it
   * was before, even when other toasts were added in between.
   */
  lemma {:induction false} DismissUndoesToast(before: seq<ToastEntry>, t: ToastEntry, later: seq<ToastEntry>)
    requires forall u | u in before :: u.id != t.id
    requires forall u | u in later :: u.id != t.id
    ensures WithoutToast(before + [t] + later, t.id) == before + later
  {
    WithoutToastAppend(before + [t], later, t.id);
    WithoutToastKeepsAll(later, t.id);
    DismissNewest(before, t);
  }

  class ToastStore {
    var toasts: seq<ToastEntry>

    constructor ()
      ensures toasts == []
    {
      toasts := [];
    }

    /**
     * `toast({ title, description, variant, duration })`: appends one toast, `"default"` and
     * 5000 ms standing in for a variant or duration not given, returns the toast's id and,
     * unless the duration is infinite, the delay after which it is dismissed.
     */
    method Toast(title: string, description: string, variant: Option<string>, duration: Option<Duration>, freshId: string)
      returns (id: string, autoDismissAfter: Option<int>)
      modifies this
      ensures id == freshId
      ensures toasts == old(toasts) + [ToastEntry(freshId, title, description, variant.GetOr(DEFAULT_VARIANT),
                                                  duration.GetOr(Millis(DEFAULT_DURATION)))]
      ensures autoDismissAfter.Some? <==> duration != Some(Forever)
      ensures autoDismissAfter.Some? ==> autoDismissAfter.value == duration.GetOr(Millis(DEFAULT_DURATION)).ms
    {
      id := freshId;
      var d := duration.GetOr(Millis(DEFAULT_DURATION));
      toasts := toasts + [ToastEntry(id, title, description, variant.GetOr(DEFAULT_VARIANT), d)];
      if d != Forever {
        autoDismissAfter := Some(d.ms);
      } else {
        autoDismissAfter := None;
      }
    }

    /** `dismiss(id)` */
    method Dismiss(id: string)
      modifies this
      ensures toasts == WithoutToast(old(toasts), id)
    {
      toasts := WithoutToast(toasts, id);
    }
  }
}
