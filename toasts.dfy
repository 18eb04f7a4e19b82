/** The `useToast` hook: an ordered list of notifications, appended to by
    `toast` and filtered by id by `dismissToast`. */
module Toasts {
  import opened JsCore

  datatype Variant = Default | Destructive

  datatype Toast = Toast(id: int, title: string, description: string, variant: Variant)

  /** The entry `toast` builds: `variant` falls back to `'default'` when the
      caller leaves it out. */
  function Entry(id: int, title: string, description: string, variant: Option<Variant>): (t: Toast)
    ensures t.id == id && t.title == title && t.description == description
    ensures variant.None? ==> t.variant == Default
    ensures variant.Some? ==> t.variant == variant.value
  {
    Toast(id, title, description, variant.GetOr(Default))
  }

  ghost predicate HasId(ts: seq<Toast>, id: int) {
    exists k :: 0 <= k < |ts| && ts[k].id == id
  }

  lemma HasIdSplit(ts: seq<Toast>, id: int)
    requires ts != []
    ensures HasId(ts, id) <==> ts[0].id == id || HasId(ts[1..], id)
  {
    if HasId(ts[1..], id) {
      var k :| 0 <= k < |ts[1..]| && ts[1..][k].id == id;
      assert ts[k + 1].id == id;
    }
    if HasId(ts, id) && ts[0].id != id {
      var k :| 0 <= k < |ts| && ts[k].id == id;
      assert ts[1..][k - 1].id == id;
    }
  }

  /** `toasts.filter((toast) => toast.id !== id)` */
  function Without(ts: seq<Toast>, id: int): (r: seq<Toast>)
    ensures forall k :: 0 <= k < |r| ==> r[k].id != id
    ensures |r| <= |ts|
    ensures |r| < |ts| <==> HasId(ts, id)
  {
    if ts == [] then []
    else
      var rest := Without(ts[1..], id);
      HasIdSplit(ts, id);
      if ts[0].id == id then rest else [ts[0]] + rest
  }

  /** `a` is `b` with some entries left out, the rest in their order. */
  ghost predicate IsSubsequence(a: seq<Toast>, b: seq<Toast>)
    decreases |b|
  {
    if a == [] then true
    else if b == [] then false
    else (a[0] == b[0] && IsSubsequence(a[1..], b[1..])) || IsSubsequence(a, b[1..])
  }

  /** Dismissing keeps the surviving entries in their original relative order. */
  lemma {:induction false} WithoutIsSubsequence(ts: seq<Toast>, id: int)
    ensures IsSubsequence(Without(ts, id), ts)
  {
    if ts != [] {
      WithoutIsSubsequence(ts[1..], id);
      if ts[0].id != id {
        assert Without(ts, id)[1..] == Without(ts[1..], id);
      }
    }
  }

  /** Dismissing keeps every entry whose id differs, as often as it occurred,
      and removes every entry that carries the id, not only the first. */
  lemma {:induction false} WithoutCounts(ts: seq<Toast>, id: int, t: Toast)
    ensures multiset(Without(ts, id))[t] == if t.id == id then 0 else multiset(ts)[t]
  {
    if ts != [] {
      WithoutCounts(ts[1..], id, t);
      assert ts == [ts[0]] + ts[1..];
    }
  }

  /** Dismissing an id no entry carries changes nothing. */
  lemma {:induction false} WithoutAbsent(ts: seq<Toast>, id: int)
    requires !HasId(ts, id)
    ensures Without(ts, id) == ts
  {
    if ts != [] {
      HasIdSplit(ts, id);
      WithoutAbsent(ts[1..], id);
    }
  }

  /** Dismissing the same id twice is the same as dismissing it once. */
  lemma WithoutIdempotent(ts: seq<Toast>, id: int)
    ensures Without(Without(ts, id), id) == Without(ts, id)
  {
    WithoutAbsent(Without(ts, id), id);
  }

  /** The filter distributes over concatenation. */
  lemma {:induction false} WithoutAppend(a: seq<Toast>, b: seq<Toast>, id: int)
    ensures Without(a + b, id) == Without(a, id) + Without(b, id)
  {
    if a != [] {
      assert (a + b)[1..] == a[1..] + b;
      WithoutAppend(a[1..], b, id);
    } else {
      assert a + b == b;
    }
  }

  /** Two toasts created in the same clock tick share an id, and one dismiss
      removes both. */
  lemma SameIdBothDismissed(ts: seq<Toast>, first: Toast, second: Toast)
    requires first.id == second.id
    ensures Without(ts + [first, second], first.id) == Without(ts, first.id)
  {
    WithoutAppend(ts, [first, second], first.id);
  }

  /** The hook's state: the `toasts` list, replaced through `setToasts`. */
  class ToastQueue {
    var toasts: seq<Toast>

    /** `useState<Toast[]>([])` */
    constructor ()
      ensures toasts == []
    {
      toasts := [];
    }

    /** `toast({ title, description, variant })`, with `id` standing for the
        `Date.now()` value read when the entry is made. */
    method ShowToast(title: string, description: string, variant: Option<Variant>, id: int)
      modifies this
      ensures toasts == old(toasts) + [Entry(id, title, description, variant)]
      ensures |toasts| == |old(toasts)| + 1
    {
      toasts := toasts + [Entry(id, title, description, variant)];
    }

    /** `dismissToast(id)` */
    method DismissToast(id: int)
      modifies this
      ensures toasts == Without(old(toasts), id)
      ensures |toasts| <= |old(toasts)|
      ensures forall k :: 0 <= k < |toasts| ==> toasts[k].id != id
    {
      toasts := Without(toasts, id);
    }
  }
}
