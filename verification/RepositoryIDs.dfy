/** The repository IDs of a channel: trimmed, non-empty, without repeats, in order of first occurrence. */
module RepositoryIDs {
  import opened Strings

  function Normalize(ids: seq<string>): seq<string>
    decreases |ids|
  {
    if ids == [] then []
    else
      var before := Normalize(ids[..|ids| - 1]);
      var id := Trim(ids[|ids| - 1]);
      if id != "" && id !in before then before + [id] else before
  }

  method NormalizeRepositoryIDs(ids: seq<string>) returns (out: seq<string>)
    ensures out == Normalize(ids)
  {
    var seen: map<string, bool> := map[];
    out := [];
    for i := 0 to |ids|
      invariant out == Normalize(ids[..i])
      invariant forall id :: id in seen && seen[id] <==> id in out
    {
      assert ids[..i + 1][..i] == ids[..i];
      var id := Trim(ids[i]);
      if id != "" && !(id in seen && seen[id]) {
        seen := seen[id := true];
        out := out + [id];
      }
    }
    assert ids[..|ids|] == ids;
  }

  ghost predicate Normalized(ids: seq<string>) {
    && (forall i :: 0 <= i < |ids| ==> ids[i] != "" && IsTrimmed(ids[i]))
    && (forall i, j :: 0 <= i < j < |ids| ==> ids[i] != ids[j])
  }

  /** Where `id` first occurs once trimmed, or the length if it does not. */
  function FirstPosition(ids: seq<string>, id: string): nat {
    if ids == [] || Trim(ids[0]) == id then 0 else 1 + FirstPosition(ids[1..], id)
  }

  lemma {:induction false} FirstPositionSnoc(ids: seq<string>, last: string, id: string)
    ensures FirstPosition(ids, id) <= |ids|
    ensures FirstPosition(ids + [last], id) ==
            if FirstPosition(ids, id) < |ids| || Trim(last) == id then FirstPosition(ids, id) else |ids| + 1
  {
    if ids != [] && Trim(ids[0]) != id {
      assert (ids + [last])[1..] == ids[1..] + [last];
      FirstPositionSnoc(ids[1..], last, id);
    }
  }

  /** Normalizing keeps each non-empty trimmed ID once, in order of first occurrence. */
  lemma {:induction false} NormalizeKeepsFirsts(ids: seq<string>)
    ensures Normalized(Normalize(ids))
    ensures forall id :: id in Normalize(ids) <==> id != "" && FirstPosition(ids, id) < |ids|
    ensures forall j, k :: 0 <= j < k < |Normalize(ids)| ==>
              FirstPosition(ids, Normalize(ids)[j]) < FirstPosition(ids, Normalize(ids)[k])
    decreases |ids|
  {
    if ids != [] {
      var init, last := ids[..|ids| - 1], ids[|ids| - 1];
      NormalizeKeepsFirsts(init);
      TrimCuts(last);
      assert ids == init + [last];
      forall id ensures FirstPosition(init, id) <= |init| && FirstPosition(ids, id) ==
            if FirstPosition(init, id) < |init| || Trim(last) == id then FirstPosition(init, id) else |ids|
      {
        FirstPositionSnoc(init, last, id);
      }
      forall j | 0 <= j < |Normalize(init)| ensures FirstPosition(init, Normalize(init)[j]) < |init| {
        assert Normalize(init)[j] in Normalize(init);
      }
    }
  }

  /** Normal lists are the ones normalizing keeps, so it is idempotent. */
  lemma {:induction false} NormalizeFixpoint(ids: seq<string>)
    ensures Normalize(ids) == ids <==> Normalized(ids)
    decreases |ids|
  {
    if Normalized(ids) && ids != [] {
      var init, last := ids[..|ids| - 1], ids[|ids| - 1];
      NormalizedInit(ids);
      NormalizeFixpoint(init);
      TrimCuts(last);
      assert init + [last] == ids;
    } else {
      NormalizeKeepsFirsts(ids);
    }
  }

  lemma NormalizedInit(ids: seq<string>)
    requires Normalized(ids) && ids != []
    ensures Normalized(ids[..|ids| - 1]) && ids[|ids| - 1] !in ids[..|ids| - 1]
  {
    var init := ids[..|ids| - 1];
    forall i | 0 <= i < |init| ensures init[i] == ids[i] {}
  }
}
