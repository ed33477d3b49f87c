/**
 * The toast list (`ToastProvider.tsx`): `toast` appends a notification,
 * `dismiss` removes the ones with a given id.
 */
module ToastProvider {
  import opened Wrappers

  datatype Variant = DefaultVariant | Destructive

  /** What a caller passes to `toast`; the variant may be left out. */
  datatype ToastInput = ToastInput(title: string, description: Option<string>, variant: Option<Variant>)

  /** A shown toast: the input with its id and a definite variant. */
  datatype ToastItem = ToastItem(id: string, title: string, description: Option<string>, variant: Variant)

  /** The item `toast` appends: the input's fields, the id, and the variant defaulting to "default". */
  function ItemOf(input: ToastInput, id: string): (item: ToastItem)
    ensures item.id == id && item.title == input.title && item.description == input.description
    ensures input.variant.Some? ==> item.variant == input.variant.value
    ensures input.variant.None? ==> item.variant == DefaultVariant
  {
    ToastItem(id, input.title, input.description, input.variant.GetOr(DefaultVariant))
  }

  /** The ids of a toast list, in order. */
  function Ids(toasts: seq<ToastItem>): (ids: set<string>)
    ensures forall i :: 0 <= i < |toasts| ==> toasts[i].id in ids
    ensures forall id :: id in ids ==> exists i :: 0 <= i < |toasts| && toasts[i].id == id
  {
    set i | 0 <= i < |toasts| :: toasts[i].id
  }

  /**
   * `prev.filter((toast) => toast.id !== id)`: the items whose id differs, in
   * their original order.
   */
  function Without(toasts: seq<ToastItem>, id: string): (kept: seq<ToastItem>)
    ensures |kept| <= |toasts|
    ensures forall i :: 0 <= i < |kept| ==> kept[i].id != id
    ensures forall i :: 0 <= i < |toasts| && toasts[i].id != id ==> toasts[i] in kept
    ensures forall i :: 0 <= i < |kept| ==> kept[i] in toasts
  {
    if toasts == [] then []
    else if toasts[0].id == id then Without(toasts[1..], id)
    else [toasts[0]] + Without(toasts[1..], id)
  }

  /** Dismissing an id that is not shown changes nothing. */
  lemma {:induction false} WithoutAbsent(toasts: seq<ToastItem>, id: string)
    requires forall i :: 0 <= i < |toasts| ==> toasts[i].id != id
    ensures Without(toasts, id) == toasts
  {
    if toasts != [] {
      WithoutAbsent(toasts[1..], id);
    }
  }

  /** Dismissing the same id twice is dismissing it once. */
  lemma {:induction false} WithoutIdempotent(toasts: seq<ToastItem>, id: string)
    ensures Without(Without(toasts, id), id) == Without(toasts, id)
  {
    WithoutAbsent(Without(toasts, id), id);
  }

  /** Filtering a concatenation filters each part: the order of the kept items is the original one. */
  lemma {:induction false} WithoutAppend(front: seq<ToastItem>, back: seq<ToastItem>, id: string)
    ensures Without(front + back, id) == Without(front, id) + Without(back, id)
  {
    if front != [] {
      WithoutAppend(front[1..], back, id);
      assert (front + back)[1..] == front[1..] + back;
    } else {
      assert front + back == back;
    }
  }

  /**
   * A toast whose id was fresh, dismissed when its timer fires with no other
   * change in between, leaves the list as it was before.
   */
  lemma {:induction false} ToastThenDismiss(toasts: seq<ToastItem>, input: ToastInput, id: string)
    requires forall i :: 0 <= i < |toasts| ==> toasts[i].id != id
    ensures Without(toasts + [ItemOf(input, id)], id) == toasts
  {
    WithoutAppend(toasts, [ItemOf(input, id)], id);
    WithoutAbsent(toasts, id);
    assert Without([ItemOf(input, id)], id) == [];
  }

  /** The provider's state: the toasts on screen, oldest first. */
  class ToastList {
    var toasts: seq<ToastItem>

    constructor()
      ensures toasts == []
    {
      toasts := [];
    }

    /**
     * `toast`: append one item, built from the input with the generated id
     * (a parameter: the id comes from `crypto.randomUUID` or the clock).
     */
    method Toast(input: ToastInput, id: string)
      modifies this
      ensures toasts == old(toasts) + [ItemOf(input, id)]
      ensures |toasts| == |old(toasts)| + 1 && toasts[..|old(toasts)|] == old(toasts)
    {
      var variant := if input.variant.Some? then input.variant.value else DefaultVariant;
      toasts := toasts + [ToastItem(id, input.title, input.description, variant)];
    }

    /** `dismiss`: drop every item with that id, keeping the rest in order. */
    method Dismiss(id: string)
      modifies this
      ensures toasts == Without(old(toasts), id)
      ensures id !in Ids(toasts)
    {
      toasts := Without(toasts, id);
    }
  }
}
