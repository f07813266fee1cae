/** Labels of a function under translation: allocation, pinning, and eager or deferred resolution. */
module Labels {
  import opened Words
  import opened Opcodes

  /** An opcode position whose branch offset is filled in when its label has been pinned. */
  datatype LabelUser = LabelUser(lab: nat, user: nat)

  /** The offset of a branch from `src` to `dst`, if it fits into 32 bits. */
  function FromSrcToDst(src: nat, dst: nat): (r: Option<I32>)
    ensures r.Some? <==> -B31 <= dst - src < B31
    ensures r.Some? ==> src + r.value == dst
  {
    var offset := dst - src;
    if -B31 <= offset < B31 then Some(offset) else None
  }

  /** Labels pinned in `a` keep their positions in `b`. */
  ghost predicate StillPinned(a: seq<Option<nat>>, b: seq<Option<nat>>) {
    |a| <= |b| && forall l :: 0 <= l < |a| && a[l].Some? ==> b[l] == a[l]
  }

  class LabelRegistry {
    var labels: seq<Option<nat>>
    var users: seq<LabelUser>

    constructor ()
      ensures labels == [] && users == []
    {
      labels, users := [], [];
    }

    method NewLabel() returns (l: nat)
      modifies this
      ensures l == |old(labels)| && labels == old(labels) + [None] && users == old(users)
      ensures StillPinned(old(labels), labels)
    {
      l := |labels|;
      labels := labels + [None];
    }

    /** A label is pinned at most once. */
    method PinLabel(l: nat, at: nat) returns (ok: bool)
      requires l < |labels|
      modifies this
      ensures ok <==> old(labels)[l].None?
      ensures labels == (if ok then old(labels)[l := Some(at)] else old(labels)) && users == old(users)
      ensures StillPinned(old(labels), labels)
    {
      match labels[l]
      case Some(_) => ok := false;
      case None =>
        labels := labels[l := Some(at)];
        ok := true;
    }

    method TryPinLabel(l: nat, at: nat)
      requires l < |labels|
      modifies this
      ensures labels == (if old(labels)[l].None? then old(labels)[l := Some(at)] else old(labels))
      ensures users == old(users)
      ensures StillPinned(old(labels), labels)
    {
      if labels[l].None? {
        labels := labels[l := Some(at)];
      }
    }

    /** The offset to a pinned label, or a zero offset and a user to be resolved later. */
    method TryResolveLabel(l: nat, user: nat) returns (offset: Option<I32>)
      requires l < |labels|
      modifies this
      ensures labels == old(labels)
      ensures labels[l].Some? ==> users == old(users) && offset == FromSrcToDst(user, labels[l].value)
      ensures labels[l].None? ==> users == old(users) + [LabelUser(l, user)] && offset == Some(0)
    {
      match labels[l]
      case Some(target) => offset := FromSrcToDst(user, target);
      case None =>
        users := users + [LabelUser(l, user)];
        offset := Some(0);
    }
  }
}
