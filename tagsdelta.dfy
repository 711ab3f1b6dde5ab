/**
 * getTagsDelta of the tea service (internal/service/tea.go): from the tag ids
 * a tea is linked to and the tag ids a request asks for, the ids to link and
 * the ids to unlink. Go maps stand for the two id sets; the result lists keep
 * the order of the list they are taken from.
 */
module TagsDelta {
  import opened Foreign

  /** The ids of `xs` that are not among `ys`, in the order of `xs`, repeats kept. */
  function Missing(xs: seq<Uuid>, ys: seq<Uuid>): seq<Uuid>
  {
    if xs == [] then []
    else Missing(xs[..|xs| - 1], ys) + (if xs[|xs| - 1] in ys then [] else [xs[|xs| - 1]])
  }

  /** The set of ids a list holds. */
  function Ids(xs: seq<Uuid>): set<Uuid>
  {
    set x | x in xs
  }

  /** An id is missing exactly when it is in `xs` and not in `ys`. */
  lemma {:induction false} MissingMembers(xs: seq<Uuid>, ys: seq<Uuid>)
    ensures forall x :: x in Missing(xs, ys) <==> x in xs && x !in ys
  {
    if xs != [] {
      var front := xs[..|xs| - 1];
      MissingMembers(front, ys);
      assert xs == front + [xs[|xs| - 1]];
    }
  }

  /**
   * Repeats are kept: an id not in `ys` occurs as often as in `xs`, an id in
   * `ys` not at all.
   */
  lemma {:induction false} MissingCounts(xs: seq<Uuid>, ys: seq<Uuid>)
    ensures forall x :: multiset(Missing(xs, ys))[x] == if x in ys then 0 else multiset(xs)[x]
  {
    if xs != [] {
      var front := xs[..|xs| - 1];
      MissingCounts(front, ys);
      assert xs == front + [xs[|xs| - 1]];
    }
  }

  lemma {:induction false} MissingLength(xs: seq<Uuid>, ys: seq<Uuid>)
    ensures |Missing(xs, ys)| <= |xs|
  {
    if xs != [] {
      MissingLength(xs[..|xs| - 1], ys);
    }
  }

  /** One more element of `xs` extends the result by that element, unless `ys` holds it. */
  lemma MissingExtends(xs: seq<Uuid>, ys: seq<Uuid>, i: nat)
    requires i < |xs|
    ensures Missing(xs[..i + 1], ys) == Missing(xs[..i], ys) + (if xs[i] in ys then [] else [xs[i]])
  {
    assert xs[..i + 1][..i] == xs[..i];
  }

  /** getTagsDelta: the ids to insert, then the ids to delete. */
  method GetTagsDelta(existedTagIds: seq<Uuid>, incomingTagIds: seq<Uuid>) returns (tagIdsToInsert: seq<Uuid>, tagIdsToDelete: seq<Uuid>)
    ensures tagIdsToInsert == Missing(incomingTagIds, existedTagIds)
    ensures tagIdsToDelete == Missing(existedTagIds, incomingTagIds)
  {
    var existedTagsMap: map<Uuid, Uuid> := map[];
    for i := 0 to |existedTagIds|
      invariant forall k :: k in existedTagsMap <==> k in existedTagIds[..i]
    {
      existedTagsMap := existedTagsMap[existedTagIds[i] := existedTagIds[i]];
      assert existedTagIds[..i + 1] == existedTagIds[..i] + [existedTagIds[i]];
    }
    assert existedTagIds[..|existedTagIds|] == existedTagIds;

    var incomingTagsMap: map<Uuid, Uuid> := map[];
    for i := 0 to |incomingTagIds|
      invariant forall k :: k in incomingTagsMap <==> k in incomingTagIds[..i]
    {
      incomingTagsMap := incomingTagsMap[incomingTagIds[i] := incomingTagIds[i]];
      assert incomingTagIds[..i + 1] == incomingTagIds[..i] + [incomingTagIds[i]];
    }
    assert incomingTagIds[..|incomingTagIds|] == incomingTagIds;

    tagIdsToDelete := [];
    for i := 0 to |existedTagIds|
      invariant tagIdsToDelete == Missing(existedTagIds[..i], incomingTagIds)
    {
      MissingExtends(existedTagIds, incomingTagIds, i);
      if existedTagIds[i] !in incomingTagsMap {
        tagIdsToDelete := tagIdsToDelete + [existedTagIds[i]];
      }
    }

    tagIdsToInsert := [];
    for i := 0 to |incomingTagIds|
      invariant tagIdsToInsert == Missing(incomingTagIds[..i], existedTagIds)
    {
      MissingExtends(incomingTagIds, existedTagIds, i);
      if incomingTagIds[i] !in existedTagsMap {
        tagIdsToInsert := tagIdsToInsert + [incomingTagIds[i]];
      }
    }
  }

  /** No id is both inserted and deleted, and neither list outgrows its source. */
  lemma DeltaDisjointAndBounded(existed: seq<Uuid>, incoming: seq<Uuid>)
    ensures Ids(Missing(incoming, existed)) !! Ids(Missing(existed, incoming))
    ensures |Missing(incoming, existed)| <= |incoming| && |Missing(existed, incoming)| <= |existed|
  {
    MissingMembers(incoming, existed);
    MissingMembers(existed, incoming);
    MissingLength(incoming, existed);
    MissingLength(existed, incoming);
  }

  /** Dropping the deleted ids from the existing ones and adding the inserted ids gives the incoming set. */
  lemma DeltaReconciles(existed: seq<Uuid>, incoming: seq<Uuid>)
    ensures (Ids(existed) - Ids(Missing(existed, incoming))) + Ids(Missing(incoming, existed)) == Ids(incoming)
  {
    MissingMembers(incoming, existed);
    MissingMembers(existed, incoming);
  }
}
