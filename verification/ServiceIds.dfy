/** The list of service ids in the broker's configuration. */
module ServiceIds {
  import opened Types
  import opened Strings

  /** The trimmed, non-empty segments, in order. */
  function Ids(segments: seq<string>): seq<string>
  {
    if segments == [] then []
    else
      var id := TrimSpace(segments[0]);
      (if id != "" then [id] else []) + Ids(segments[1..])
  }

  function ParseServiceIds(text: string): Result<seq<string>>
  {
    var ids := Ids(Split(text, ','));
    if ids == [] then Err(NoServiceIds) else Ok(ids)
  }

  lemma {:induction false} IdsAppend(segments: seq<string>, last: string)
    ensures Ids(segments + [last]) == Ids(segments) + Ids([last])
  {
    if segments == [] {
      assert segments + [last] == [last];
    } else {
      assert (segments + [last])[1..] == segments[1..] + [last];
      IdsAppend(segments[1..], last);
    }
  }

  /** The parsing loop. */
  method GetServiceIds(text: string) returns (r: Result<seq<string>>)
    ensures r == ParseServiceIds(text)
  {
    var ids: seq<string> := [];
    var segments := Split(text, ',');
    for i := 0 to |segments|
      invariant ids == Ids(segments[..i])
    {
      assert segments[..i + 1] == segments[..i] + [segments[i]];
      IdsAppend(segments[..i], segments[i]);
      var s := TrimSpace(segments[i]);
      if s != "" {
        ids := ids + [s];
      }
      assert [segments[i]][1..] == [];
    }
    assert segments[..|segments|] == segments;
    if |ids| == 0 {
      return Err(NoServiceIds);
    }
    return Ok(ids);
  }

  predicate ProperId(id: string)
  {
    id != "" && Trimmed(id) && ',' !in id
  }

  lemma {:induction false} IdsAreProper(segments: seq<string>)
    requires SeparatorFree(segments, ',')
    ensures forall i :: 0 <= i < |Ids(segments)| ==> ProperId(Ids(segments)[i])
  {
    if segments == [] {
    } else {
      assert SeparatorFree(segments[1..], ',');
      IdsAreProper(segments[1..]);
      var i, j := TrimSpaceMeaning(segments[0]);
      assert ',' !in segments[0][i..j];
      var head := if TrimSpace(segments[0]) != "" then [TrimSpace(segments[0])] else [];
      assert Ids(segments) == head + Ids(segments[1..]);
    }
  }

  lemma {:induction false} IdsOfProperIds(ids: seq<string>)
    requires forall i :: 0 <= i < |ids| ==> ProperId(ids[i])
    ensures Ids(ids) == ids
  {
    if ids == [] {
    } else {
      TrimmedIsFixed(ids[0]);
      IdsOfProperIds(ids[1..]);
      assert ids == [ids[0]] + ids[1..];
    }
  }

  /** Where each parsed id comes from: `sources` picks, in increasing order, the segments that are not
      blank, and every other segment is blank. */
  lemma {:induction false} IdsPreserveOrder(segments: seq<string>) returns (sources: seq<nat>)
    ensures |sources| == |Ids(segments)|
    ensures forall k :: 0 <= k < |sources| ==>
                          sources[k] < |segments| && Ids(segments)[k] == TrimSpace(segments[sources[k]])
    ensures forall k, l :: 0 <= k < l < |sources| ==> sources[k] < sources[l]
    ensures forall i: nat :: i < |segments| ==> (i in sources <==> TrimSpace(segments[i]) != "")
  {
    sources := [];
    if segments != [] {
      var last := segments[|segments| - 1];
      var init := segments[..|segments| - 1];
      assert segments == init + [last];
      IdsAppend(init, last);
      assert [last][1..] == [];
      var before := IdsPreserveOrder(init);
      assert forall k :: 0 <= k < |before| ==> init[before[k]] == segments[before[k]];
      if TrimSpace(last) != "" {
        sources := before + [|init|];
        assert Ids(segments) == Ids(init) + [TrimSpace(last)];
      } else {
        sources := before;
        assert Ids(segments) == Ids(init);
      }
      forall i: nat | i < |segments| ensures i in sources <==> TrimSpace(segments[i]) != "" {
        if i < |init| {
          assert init[i] == segments[i];
          assert i in sources <==> i in before;
        } else {
          assert |init| !in before;
        }
      }
    }
  }

  /** A parsed id list is never empty, and each id is trimmed, non-empty and free of commas. Joining the
      list with commas and parsing it again gives the same list. */
  lemma ServiceIdsRoundTrip(text: string)
    ensures match ParseServiceIds(text)
            case Ok(ids) =>
              && ids != []
              && (forall i :: 0 <= i < |ids| ==> ProperId(ids[i]))
              && ParseServiceIds(Join(ids, ',')) == Ok(ids)
            case Err(_) =>
              forall i :: 0 <= i < |Split(text, ',')| ==> TrimSpace(Split(text, ',')[i]) == ""
  {
    SplitIsSeparatorFree(text, ',');
    IdsAreProper(Split(text, ','));
    match ParseServiceIds(text)
    case Ok(ids) =>
      SplitJoin(ids, ',');
      IdsOfProperIds(ids);
    case Err(_) =>
      var sources := IdsPreserveOrder(Split(text, ','));
  }
}
