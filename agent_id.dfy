/**
 * How the page's URL path names the voice agent to call: the segment after
 * `agent_id`, else the first segment starting with `agent_`, else a fixed
 * default agent.
 */
module AgentId {
  import opened RetellTypes
  import opened JsString

  /** The agent called when the path names none. */
  const DefaultAgentId: string := "agent_a144835b4e555700c5bd3148fe"

  /** The segment whose successor is the agent id. */
  const Marker: string := "agent_id"

  /** The prefix of a segment that is itself an agent id. */
  const AgentPrefix: string := "agent_"

  /** `parts.filter(segment => segment.length > 0)`. */
  function NonEmptyOnly(parts: seq<string>): (kept: seq<string>)
    ensures |kept| <= |parts|
    ensures forall i :: 0 <= i < |kept| ==> kept[i] != ""
    ensures forall x :: x in kept <==> x in parts && x != ""
    decreases |parts|
  {
    if parts == [] then []
    else (if parts[0] != "" then [parts[0]] else []) + NonEmptyOnly(parts[1..])
  }

  /** Filtering keeps a list with no empty entry as it is. */
  lemma {:induction false} NonEmptyOnlyKeepsNonEmpty(parts: seq<string>)
    requires forall i :: 0 <= i < |parts| ==> parts[i] != ""
    ensures NonEmptyOnly(parts) == parts
    decreases |parts|
  {
    if parts != [] {
      NonEmptyOnlyKeepsNonEmpty(parts[1..]);
      assert parts == [parts[0]] + parts[1..];
    }
  }

  /** The filter works piece by piece: it keeps the order and the repeats of what it keeps. */
  lemma {:induction false} NonEmptyOnlyAppend(a: seq<string>, b: seq<string>)
    ensures NonEmptyOnly(a + b) == NonEmptyOnly(a) + NonEmptyOnly(b)
    decreases |a|
  {
    if a == [] {
      assert a + b == b;
    } else {
      var head := if a[0] != "" then [a[0]] else [];
      assert NonEmptyOnly(a + b) == head + NonEmptyOnly(a[1..] + b) by {
        assert (a + b)[0] == a[0];
        assert (a + b)[1..] == a[1..] + b;
      }
      assert NonEmptyOnly(a[1..] + b) == NonEmptyOnly(a[1..]) + NonEmptyOnly(b) by {
        NonEmptyOnlyAppend(a[1..], b);
      }
      assert NonEmptyOnly(a) == head + NonEmptyOnly(a[1..]);
    }
  }

  /** The non-empty `/`-separated segments of a path, in order. */
  function Segments(path: string): (segs: seq<string>)
    ensures forall i :: 0 <= i < |segs| ==> segs[i] != "" && '/' !in segs[i]
  {
    var parts := Split(path, '/');
    var segs := NonEmptyOnly(parts);
    assert forall i :: 0 <= i < |segs| ==> '/' !in segs[i] by {
      forall i | 0 <= i < |segs| ensures '/' !in segs[i] {
        assert segs[i] in parts;
        var j :| 0 <= j < |parts| && parts[j] == segs[i];
      }
    }
    segs
  }

  /** The path written with one slash before each segment. */
  function PathOf(segs: seq<string>): (path: string)
  {
    "/" + Join(segs, '/')
  }

  /** A path built from non-empty, slash-free segments splits back into exactly those segments. */
  lemma {:induction false} SegmentsOfPathOf(segs: seq<string>)
    requires forall i :: 0 <= i < |segs| ==> segs[i] != "" && '/' !in segs[i]
    ensures Segments(PathOf(segs)) == segs
  {
    var parts := if segs == [] then ["", ""] else [""] + segs;
    assert PathOf(segs) == Join(parts, '/') by {
      if segs != [] {
        assert parts[1..] == segs;
      }
    }
    SplitJoin(parts, '/');
    if segs == [] {
      assert NonEmptyOnly(parts) == NonEmptyOnly(parts[1..]) == [];
    } else {
      assert parts[1..] == segs;
      NonEmptyOnlyKeepsNonEmpty(segs);
    }
  }

  /** `segs.findIndex(segment => segment === target)`: the first position of `target`, or -1. */
  function FindIndex(segs: seq<string>, target: string): (i: int)
    ensures -1 <= i < |segs|
    ensures i == -1 <==> target !in segs
    ensures 0 <= i ==> segs[i] == target && forall j :: 0 <= j < i ==> segs[j] != target
    decreases |segs|
  {
    if segs == [] then -1
    else if segs[0] == target then 0
    else
      var k := FindIndex(segs[1..], target);
      if k == -1 then -1 else k + 1
  }

  /** `segs.find(segment => segment.startsWith(prefix))`: the first segment with `prefix`, if any. */
  function FindWithPrefix(segs: seq<string>, prefix: string): (found: Option<string>)
    ensures found.None? <==> forall j :: 0 <= j < |segs| ==> !StartsWith(segs[j], prefix)
    ensures found.Some? ==>
      exists k :: 0 <= k < |segs| && segs[k] == found.value && StartsWith(found.value, prefix)
        && forall j :: 0 <= j < k ==> !StartsWith(segs[j], prefix)
    decreases |segs|
  {
    if segs == [] then None
    else if StartsWith(segs[0], prefix) then Some(segs[0])
    else
      var rest := FindWithPrefix(segs[1..], prefix);
      assert rest.Some? ==>
        (exists k :: 0 <= k < |segs| && segs[k] == rest.value && StartsWith(rest.value, prefix)
          && forall j :: 0 <= j < k ==> !StartsWith(segs[j], prefix)) by {
        if rest.Some? {
          var k :| 0 <= k < |segs| - 1 && segs[1..][k] == rest.value && StartsWith(rest.value, prefix)
            && forall j :: 0 <= j < k ==> !StartsWith(segs[1..][j], prefix);
          assert segs[k + 1] == rest.value;
          assert forall j :: 0 <= j < k + 1 ==> !StartsWith(segs[j], prefix) by {
            forall j | 0 <= j < k + 1 ensures !StartsWith(segs[j], prefix) {
              if j > 0 { assert segs[j] == segs[1..][j - 1]; }
            }
          }
        }
      }
      assert rest.None? ==> forall j :: 0 <= j < |segs| ==> !StartsWith(segs[j], prefix) by {
        if rest.None? {
          forall j | 0 <= j < |segs| ensures !StartsWith(segs[j], prefix) {
            if j > 0 { assert segs[j] == segs[1..][j - 1]; }
          }
        }
      }
      rest
  }

  /**
   * The agent id named by a URL path. The result is never empty, and it is
   * either one of the path's segments or the default agent.
   */
  function AgentIdFromPath(path: string): (id: string)
    ensures id != ""
    ensures id in Segments(path) || id == DefaultAgentId
  {
    AgentIdFromSegments(Segments(path))
  }

  /**
   * The choice among the segments: the successor of the first `agent_id`,
   * else the first segment starting with `agent_`, else the default agent.
   */
  function AgentIdFromSegments(segs: seq<string>): (id: string)
    requires forall i :: 0 <= i < |segs| ==> segs[i] != ""
    ensures id != ""
    ensures id in segs || id == DefaultAgentId
  {
    var agentIndex := FindIndex(segs, Marker);
    if agentIndex != -1 && agentIndex + 1 < |segs| then segs[agentIndex + 1]
    else
      var agentSegment := FindWithPrefix(segs, AgentPrefix);
      // the found segment is used when it is truthy, that is, non-empty
      if agentSegment.Some? && agentSegment.value != "" then agentSegment.value
      else DefaultAgentId
  }

  /** The segment after the first `agent_id` is the agent id, when there is one. */
  lemma AgentIdFollowsMarker(segs: seq<string>, i: nat)
    requires forall j :: 0 <= j < |segs| ==> segs[j] != ""
    requires i + 1 < |segs| && segs[i] == Marker
    requires forall j :: 0 <= j < i ==> segs[j] != Marker
    ensures AgentIdFromSegments(segs) == segs[i + 1]
  {
    assert FindIndex(segs, Marker) == i;
  }

  /**
   * Without an `agent_id` that has a successor, the first segment starting
   * with `agent_` is the agent id.
   */
  lemma AgentIdFallsBackToPrefixed(segs: seq<string>, k: nat)
    requires forall j :: 0 <= j < |segs| ==> segs[j] != ""
    requires forall j :: 0 <= j < |segs| - 1 ==> segs[j] != Marker
    requires k < |segs| && StartsWith(segs[k], AgentPrefix)
    requires forall j :: 0 <= j < k ==> !StartsWith(segs[j], AgentPrefix)
    ensures AgentIdFromSegments(segs) == segs[k]
  {
    var agentIndex := FindIndex(segs, Marker);
    assert !(agentIndex != -1 && agentIndex + 1 < |segs|);
    var found := FindWithPrefix(segs, AgentPrefix);
    assert found.Some?;
    var k' :| 0 <= k' < |segs| && segs[k'] == found.value && StartsWith(found.value, AgentPrefix)
      && forall j :: 0 <= j < k' ==> !StartsWith(segs[j], AgentPrefix);
    assert k' == k;
  }

  /** Segments none of which starts with `agent_` name the default agent. */
  lemma AgentIdDefault(segs: seq<string>)
    requires forall j :: 0 <= j < |segs| ==> segs[j] != ""
    requires forall j :: 0 <= j < |segs| ==> !StartsWith(segs[j], AgentPrefix)
    ensures AgentIdFromSegments(segs) == DefaultAgentId
  {
    assert StartsWith(Marker, AgentPrefix);
    assert FindIndex(segs, Marker) == -1;
  }

  /** The segments of two paths joined by a slash are the segments of the first, then those of the second. */
  lemma SegmentsOfJoinedPaths(p: string, q: string)
    ensures Segments(p + "/" + q) == Segments(p) + Segments(q)
  {
    SplitAroundSeparator(p, q, '/');
    NonEmptyOnlyAppend(Split(p, '/'), Split(q, '/'));
  }

  /** A trailing slash adds no segment. */
  lemma TrailingSlashIgnored(p: string)
    ensures Segments(p + "/") == Segments(p)
  {
    SegmentsOfJoinedPaths(p, "");
    assert p + "/" + "" == p + "/";
    assert Segments("") == [];
  }

  /** A doubled slash adds no segment. */
  lemma DoubledSlashIgnored(p: string, q: string)
    ensures Segments(p + "//" + q) == Segments(p + "/" + q)
  {
    assert p + "//" + q == (p + "/") + "/" + q;
    SegmentsOfJoinedPaths(p + "/", q);
    TrailingSlashIgnored(p);
    SegmentsOfJoinedPaths(p, q);
  }

  /** The agent id does not depend on a trailing slash. */
  lemma AgentIdIgnoresTrailingSlash(p: string)
    ensures AgentIdFromPath(p + "/") == AgentIdFromPath(p)
  {
    TrailingSlashIgnored(p);
  }

  /**
   * `/agent_id` alone names the agent `agent_id`: the marker has no successor,
   * and the marker itself starts with `agent_`.
   */
  lemma MarkerAloneIsItsOwnAgent()
    ensures AgentIdFromPath(PathOf([Marker])) == Marker
  {
    var segs := [Marker];
    SegmentsOfPathOf(segs);
    assert StartsWith(Marker, AgentPrefix);
    AgentIdFallsBackToPrefixed(segs, 0);
  }

  /**
   * Any segment starting with `agent_` before a trailing `agent_id` is the
   * agent id: the marker has no successor, so the earlier segment wins.
   */
  lemma EarlierPrefixedSegmentWins(first: string)
    requires '/' !in first && StartsWith(first, AgentPrefix)
    ensures AgentIdFromPath(PathOf([first, Marker])) == first
  {
    var segs := [first, Marker];
    SegmentsOfPathOf(segs);
    if first == Marker {
      AgentIdFollowsMarker(segs, 0);
    } else {
      AgentIdFallsBackToPrefixed(segs, 0);
    }
  }
}
