/** The toast store of the web app: a pure reducer over the list of visible
    toasts, a module-wide id counter, and a global dispatcher that replaces the
    in-memory state and notifies every subscribed listener. Timers
    (auto-dismiss and delayed removal) are not part of this model. */
module Toasts {
  import opened Common

  datatype Variant = Default | Destructive

  /** A visible toast. The `onOpenChange` callback is not modelled. */
  datatype Toast = Toast(
    id: string,
    title: Option<string>,
    description: Option<string>,
    variant: Option<Variant>,
    open: bool)

  /** `Partial<ToastProps> & { id }`: an outer `None` is a key that is absent
      from the object; `Some(None)` is a key present with value `undefined`,
      which the object spread copies like any other value. */
  datatype ToastPatch = ToastPatch(
    id: string,
    title: Option<Option<string>>,
    description: Option<Option<string>>,
    variant: Option<Option<Variant>>,
    open: Option<bool>)

  datatype Action =
    | AddToast(toast: Toast)
    | UpdateToast(patch: ToastPatch)
    | DismissToast(toastId: string)
    | RemoveToast(toastId: string)
    | OtherAction

  const ToastLimit: nat := 5
  const MaxSafeInteger: nat := 9007199254740991

  // ---------------------------------------------------------------------------
  // The reducer

  /** `{ ...t, ...p }`: every key present in the patch wins. */
  function Merge(t: Toast, p: ToastPatch): (r: Toast)
    ensures r.id == p.id
    ensures r.title == (if p.title.Some? then p.title.value else t.title)
    ensures r.description == (if p.description.Some? then p.description.value else t.description)
    ensures r.variant == (if p.variant.Some? then p.variant.value else t.variant)
    ensures r.open == (if p.open.Some? then p.open.value else t.open)
  {
    Toast(p.id,
          if p.title.Some? then p.title.value else t.title,
          if p.description.Some? then p.description.value else t.description,
          if p.variant.Some? then p.variant.value else t.variant,
          if p.open.Some? then p.open.value else t.open)
  }

  /** UPDATE keeps length, order and ids; only toasts with the patch's id
      change, each into its merge with the patch. */
  function UpdateAll(ts: seq<Toast>, p: ToastPatch): (r: seq<Toast>)
    ensures |r| == |ts|
    ensures forall i :: 0 <= i < |ts| ==> r[i].id == ts[i].id
    ensures forall i :: 0 <= i < |ts| && ts[i].id != p.id ==> r[i] == ts[i]
    ensures forall i :: 0 <= i < |ts| && ts[i].id == p.id ==> r[i] == Merge(ts[i], p)
  {
    seq(|ts|, i requires 0 <= i < |ts| => if ts[i].id == p.id then Merge(ts[i], p) else ts[i])
  }

  /** DISMISS closes every toast with the id and changes nothing else. */
  function DismissAll(ts: seq<Toast>, id: string): (r: seq<Toast>)
    ensures |r| == |ts|
    ensures forall i :: 0 <= i < |ts| ==> r[i].open == (ts[i].open && ts[i].id != id)
    ensures forall i :: 0 <= i < |ts| ==> r[i].(open := ts[i].open) == ts[i]
  {
    seq(|ts|, i requires 0 <= i < |ts| => if ts[i].id == id then ts[i].(open := false) else ts[i])
  }

  predicate Other(id: string, t: Toast) { t.id != id }

  function RemoveAll(ts: seq<Toast>, id: string): seq<Toast> {
    Filter(ts, t => Other(id, t))
  }

  /** `toastReducer`. An unknown action returns the state unchanged, and no
      action takes a list of at most five toasts above five. */
  function Reduce(ts: seq<Toast>, action: Action): (r: seq<Toast>)
    ensures action.OtherAction? ==> r == ts
    ensures |ts| <= ToastLimit ==> |r| <= ToastLimit
  {
    match action
    case AddToast(t) => Take([t] + ts, ToastLimit)
    case UpdateToast(p) => UpdateAll(ts, p)
    case DismissToast(id) => DismissAll(ts, id)
    case RemoveToast(id) => RemoveAll(ts, id)
    case OtherAction => ts
  }

  // ---------------------------------------------------------------------------
  // What each action does

  /** ADD puts the new toast first and keeps at most five, so the toasts that
      drop off are the oldest ones at the end. */
  lemma AddSpec(ts: seq<Toast>, t: Toast)
    ensures var r := Reduce(ts, AddToast(t));
      && |r| == (if |ts| < ToastLimit then |ts| + 1 else ToastLimit)
      && r[0] == t
      && r[1..] == ts[..|r| - 1]
      && (|ts| < ToastLimit ==> r == [t] + ts)
  {
    var r := Reduce(ts, AddToast(t));
    assert r == ([t] + ts)[..|r|];
    assert r[1..] == ts[..|r| - 1];
  }

  /** An update whose id matches nothing leaves the list as it was. */
  lemma UpdateUnknownId(ts: seq<Toast>, p: ToastPatch)
    requires forall t :: t in ts ==> t.id != p.id
    ensures Reduce(ts, UpdateToast(p)) == ts
  {
    var r := Reduce(ts, UpdateToast(p));
    forall i | 0 <= i < |ts| ensures r[i] == ts[i] {
      assert ts[i] in ts;
    }
  }

  /** DISMISS is the UPDATE that carries only `open: false`. */
  lemma DismissIsUpdate(ts: seq<Toast>, id: string)
    ensures Reduce(ts, DismissToast(id)) == Reduce(ts, UpdateToast(ToastPatch(id, None, None, None, Some(false))))
  {
  }

  /** REMOVE leaves no toast with the id, and every other toast stays with the
      same number of copies. */
  lemma {:induction false} RemoveSpec(ts: seq<Toast>, id: string, t: Toast)
    ensures var r := Reduce(ts, RemoveToast(id));
      && (t in r ==> t.id != id)
      && (t.id != id ==> multiset(r)[t] == multiset(ts)[t])
      && |r| <= |ts|
  {
    if |ts| > 0 {
      var front, last := ts[..|ts| - 1], ts[|ts| - 1];
      RemoveSpec(front, id, t);
      assert ts == front + [last];
    }
  }

  /** REMOVE preserves the order of the remaining toasts: removing from a
      concatenation is the concatenation of the removals. */
  lemma {:induction false} RemoveAppend(a: seq<Toast>, b: seq<Toast>, id: string)
    ensures RemoveAll(a + b, id) == RemoveAll(a, id) + RemoveAll(b, id)
  {
    if |b| > 0 {
      var front, last := b[..|b| - 1], b[|b| - 1];
      assert (a + b)[..|a + b| - 1] == a + front;
      RemoveAppend(a, front, id);
    } else {
      assert a + b == a;
    }
  }

  /** REMOVE of an id that no toast has changes nothing. */
  lemma {:induction false} RemoveUnknownId(ts: seq<Toast>, id: string)
    requires forall t :: t in ts ==> t.id != id
    ensures Reduce(ts, RemoveToast(id)) == ts
  {
    if |ts| > 0 {
      var front := ts[..|ts| - 1];
      assert forall t :: t in front ==> t in ts;
      assert ts[|ts| - 1] in ts;
      RemoveUnknownId(front, id);
      assert front + [ts[|ts| - 1]] == ts;
    }
  }

  /** The auto-close sequence: dismissing and then removing a toast ends in the
      same list as removing it straight away. */
  lemma {:induction false} DismissThenRemove(ts: seq<Toast>, id: string)
    ensures RemoveAll(DismissAll(ts, id), id) == RemoveAll(ts, id)
  {
    if |ts| > 0 {
      var front := ts[..|ts| - 1];
      var d := DismissAll(ts, id);
      assert d[..|d| - 1] == DismissAll(front, id);
      DismissThenRemove(front, id);
    }
  }

  // ---------------------------------------------------------------------------
  // Ids

  /** Reading back the decimal text of a number gives the number. */
  lemma {:induction false} NatToStringValue(n: nat)
    ensures forall i :: 0 <= i < |NatToString(n)| ==> DigitValue(NatToString(n)[i], 10).Some?
    ensures DigitsValue(NatToString(n), 10) == n
  {
    var s := NatToString(n);
    assert forall i :: 0 <= i < |s| ==> IsDigit(s[i]);
    if n >= 10 {
      NatToStringValue(n / 10);
      assert s[..|s| - 1] == NatToString(n / 10);
    }
  }

  /** Different counter values give different ids. */
  lemma IdsDistinct(a: nat, b: nat)
    requires a != b
    ensures NatToString(a) != NatToString(b)
  {
    NatToStringValue(a);
    NatToStringValue(b);
  }

  // ---------------------------------------------------------------------------
  // The global store

  datatype Notification = Notification(listener: nat, toasts: seq<Toast>)

  /** The calls `listeners.forEach(l => l(state))` makes, in order. */
  function Broadcast(ls: seq<nat>, state: seq<Toast>): (r: seq<Notification>)
    ensures |r| == |ls|
    ensures forall k :: 0 <= k < |r| ==> r[k] == Notification(ls[k], state)
  {
    if |ls| == 0 then [] else Broadcast(ls[..|ls| - 1], state) + [Notification(ls[|ls| - 1], state)]
  }

  /** `listeners.splice(listeners.indexOf(l), 1)` when `l` is present. */
  function RemoveFirst(ls: seq<nat>, l: nat): (r: seq<nat>)
    ensures l !in ls ==> r == ls
    ensures l in ls ==> |r| == |ls| - 1 && multiset(r) == multiset(ls) - multiset{l}
  {
    if |ls| == 0 then []
    else
      assert ls == [ls[0]] + ls[1..];
      if ls[0] == l then ls[1..] else [ls[0]] + RemoveFirst(ls[1..], l)
  }

  /** The module-level state of the hook: the id counter, `memoryState` and
      the subscribed listeners (React state setters, named by number). Every
      listener call is recorded in `notified`. */
  class ToastStore {
    var count: nat
    var toasts: seq<Toast>
    var listeners: seq<nat>
    var notified: seq<Notification>

    predicate Valid()
      reads this
    {
      count < MaxSafeInteger && |toasts| <= ToastLimit
    }

    constructor ()
      ensures Valid()
      ensures count == 0 && toasts == [] && listeners == [] && notified == []
    {
      count := 0;
      toasts := [];
      listeners := [];
      notified := [];
    }

    /** `generateId`: advance the counter modulo `MAX_SAFE_INTEGER` and return
        it in decimal; the new id differs from the previous counter's id. */
    method GenerateId() returns (id: string)
      requires Valid()
      modifies this
      ensures Valid()
      ensures count == (old(count) + 1) % MaxSafeInteger
      ensures id == NatToString(count)
      ensures id != NatToString(old(count))
      ensures toasts == old(toasts) && listeners == old(listeners) && notified == old(notified)
    {
      count := (count + 1) % MaxSafeInteger;
      id := NatToString(count);
      IdsDistinct(count, old(count));
    }

    /** `globalDispatch`: replace the state by the reducer's result, then call
        every listener, in order, with that new state. */
    method Dispatch(action: Action)
      requires Valid()
      modifies this
      ensures Valid()
      ensures toasts == Reduce(old(toasts), action)
      ensures notified == old(notified) + Broadcast(listeners, toasts)
      ensures count == old(count) && listeners == old(listeners)
    {
      toasts := Reduce(toasts, action);
      var ls := listeners;
      for i := 0 to |ls|
        invariant notified == old(notified) + Broadcast(ls[..i], toasts)
        invariant Valid() && listeners == ls && count == old(count)
        invariant toasts == Reduce(old(toasts), action)
      {
        assert ls[..i + 1][..i] == ls[..i];
        notified := notified + [Notification(ls[i], toasts)];
      }
      assert ls[..|ls|] == ls;
    }

    /** `toast(options)`: take a fresh id and add an open toast with it; the
        new toast is shown first. */
    method Show(title: Option<string>, description: Option<string>, variant: Option<Variant>)
      returns (id: string)
      requires Valid()
      modifies this
      ensures Valid()
      ensures id == NatToString(count) && count == (old(count) + 1) % MaxSafeInteger
      ensures toasts == Reduce(old(toasts), AddToast(Toast(id, title, description, variant, true)))
      ensures toasts[0] == Toast(id, title, description, variant, true)
      ensures notified == old(notified) + Broadcast(listeners, toasts)
      ensures listeners == old(listeners)
    {
      id := GenerateId();
      var t := Toast(id, title, description, variant, true);
      Dispatch(AddToast(t));
      AddSpec(old(toasts), t);
    }

    /** The effect of `useToast`: subscribe the component's setter. */
    method Subscribe(l: nat)
      modifies this
      ensures listeners == old(listeners) + [l]
      ensures count == old(count) && toasts == old(toasts) && notified == old(notified)
    {
      listeners := listeners + [l];
    }

    /** The effect's clean-up: remove the first occurrence of the setter, if
        any. */
    method Unsubscribe(l: nat)
      modifies this
      ensures listeners == RemoveFirst(old(listeners), l)
      ensures count == old(count) && toasts == old(toasts) && notified == old(notified)
    {
      listeners := RemoveFirst(listeners, l);
    }
  }
}
