/** The toast notifications store: one shared toast list, replaced by each
    dispatched action, after which every registered listener is called with
    the new list. */
module Toasts {
  import opened Base
  import Keyed

  datatype Variant = Default | Destructive

  datatype Toast = Toast(id: string, title: Option<string>, description: Option<string>, variant: Option<Variant>)

  datatype Action = AddToast(toast: Toast) | RemoveToast(id: string)

  /** One listener call: which listener, and the list it was given. */
  datatype Delivery = Delivery(listener: nat, toasts: seq<Toast>)

  function ToastId(t: Toast): string
  {
    t.id
  }

  /** The reducer: an added toast goes last; removing drops every toast with
      the id and keeps the others in order. */
  function Reduce(toasts: seq<Toast>, action: Action): (r: seq<Toast>)
    ensures action.AddToast? ==> r == toasts + [action.toast]
    ensures action.RemoveToast? ==>
      && (forall i :: 0 <= i < |r| ==> r[i] in toasts && r[i].id != action.id)
      && (forall i :: 0 <= i < |toasts| && toasts[i].id != action.id ==> toasts[i] in r)
      && |r| <= |toasts|
      && (forall x :: multiset(r)[x] == if x.id != action.id then multiset(toasts)[x] else 0)
      && r == Keyed.Without(toasts, ToastId, action.id)
  {
    match action
    case AddToast(t) => toasts + [t]
    case RemoveToast(id) => Keyed.Without(toasts, ToastId, id)
  }

  /** Removing an id no toast has leaves the list as it was. */
  lemma RemoveAbsentToast(toasts: seq<Toast>, id: string)
    requires forall i :: 0 <= i < |toasts| ==> toasts[i].id != id
    ensures Reduce(toasts, RemoveToast(id)) == toasts
  {
    Keyed.WithoutAbsent(toasts, ToastId, id);
  }

  /** Removing a toast added under a fresh id gives back the earlier list. */
  lemma RemoveUndoesAdd(toasts: seq<Toast>, t: Toast)
    requires forall i :: 0 <= i < |toasts| ==> toasts[i].id != t.id
    ensures Reduce(Reduce(toasts, AddToast(t)), RemoveToast(t.id)) == toasts
  {
    Keyed.WithoutAppend(toasts, [t], ToastId, t.id);
    Keyed.WithoutAbsent(toasts, ToastId, t.id);
    assert Keyed.Without([t], ToastId, t.id) == [];
  }

  /** The module-level state: the toast list, the registered listeners and
      the calls made to them so far. */
  class ToastStore {
    var toasts: seq<Toast>
    var listeners: seq<nat>
    var delivered: seq<Delivery>

    constructor (listeners: seq<nat>)
      ensures toasts == [] && this.listeners == listeners && delivered == []
    {
      toasts := [];
      this.listeners := listeners;
      delivered := [];
    }

    /** `dispatch`: reduce, then call each listener in registration order. */
    method Dispatch(action: Action)
      modifies this
      ensures toasts == Reduce(old(toasts), action)
      ensures listeners == old(listeners)
      ensures |delivered| == |old(delivered)| + |listeners| && delivered[..|old(delivered)|] == old(delivered)
      ensures forall i :: 0 <= i < |listeners| ==> delivered[|old(delivered)| + i] == Delivery(listeners[i], toasts)
    {
      toasts := Reduce(toasts, action);
      var i := 0;
      while i < |listeners|
        invariant 0 <= i <= |listeners|
        invariant toasts == Reduce(old(toasts), action) && listeners == old(listeners)
        invariant |delivered| == |old(delivered)| + i && delivered[..|old(delivered)|] == old(delivered)
        invariant forall j :: 0 <= j < i ==> delivered[|old(delivered)| + j] == Delivery(listeners[j], toasts)
      {
        delivered := delivered + [Delivery(listeners[i], toasts)];
        i := i + 1;
      }
    }

    /** `dismiss`: exactly the removal action for the id. */
    method Dismiss(id: string)
      modifies this
      ensures toasts == Reduce(old(toasts), RemoveToast(id))
      ensures listeners == old(listeners)
      ensures |delivered| == |old(delivered)| + |listeners| && delivered[..|old(delivered)|] == old(delivered)
      ensures forall i :: 0 <= i < |listeners| ==> delivered[|old(delivered)| + i] == Delivery(listeners[i], toasts)
    {
      Dispatch(RemoveToast(id));
    }

    /** `toast`: the new toast's id is the current time in decimal. */
    method Show(title: Option<string>, description: Option<string>, variant: Option<Variant>, now: nat)
      returns (id: string)
      modifies this
      ensures id == Decimal(now)
      ensures toasts == old(toasts) + [Toast(id, title, description, variant)]
      ensures listeners == old(listeners)
      ensures |delivered| == |old(delivered)| + |listeners| && delivered[..|old(delivered)|] == old(delivered)
      ensures forall i :: 0 <= i < |listeners| ==> delivered[|old(delivered)| + i] == Delivery(listeners[i], toasts)
    {
      id := Decimal(now);
      Dispatch(AddToast(Toast(id, title, description, variant)));
    }
  }
}
