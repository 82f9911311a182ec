/**
 * The tag filter of the integration: a string of comma-separated
 * `key=value` pairs, such as `env=prod, site=lab`, read into a map.
 * Segments that are not exactly one non-empty key and one non-empty value
 * around a single `=` are skipped; keys and values are trimmed of white
 * space, and a later pair overrides an earlier one with the same key.
 */
module Utils {
  import opened Wrappers
  import opened GoStrings
  import opened Collections

  /** The pair one comma-separated segment contributes, if any. */
  function Tag(segment: string): Option<(string, string)>
  {
    var parts := Split(segment, '=');
    if |parts| == 2 && |parts[0]| > 0 && |parts[1]| > 0 then Some((TrimSpace(parts[0]), TrimSpace(parts[1])))
    else None
  }

  /** A key, `=` and a value, each side non-empty and without `=`, is a tag. */
  lemma TagOfPair(key: string, value: string)
    requires |key| > 0 && |value| > 0 && '=' !in key && '=' !in value
    ensures Tag(key + "=" + value) == Some((TrimSpace(key), TrimSpace(value)))
  {
    SplitAfterPiece(key, value, '=');
    SplitWithoutSeparator(value, '=');
  }

  /** Conversely, every tag is such a segment: the two sides of its single `=`. */
  lemma TagShape(segment: string) returns (key: string, value: string)
    requires Tag(segment).Some?
    ensures segment == key + "=" + value
    ensures |key| > 0 && |value| > 0 && '=' !in key && '=' !in value
    ensures Tag(segment) == Some((TrimSpace(key), TrimSpace(value)))
  {
    var parts := Split(segment, '=');
    key, value := parts[0], parts[1];
    JoinSplit(segment, '=');
    assert parts[1..] == [value];
  }

  /** The pairs of the accepted segments, in order. */
  function TagPairs(segments: seq<string>): (pairs: seq<(string, string)>)
    ensures |pairs| <= |segments|
  {
    if segments == [] then []
    else
      var front := TagPairs(segments[..|segments| - 1]);
      match Tag(segments[|segments| - 1])
      case None => front
      case Some(t) => front + [t]
  }

  /** The map ParseTags builds: empty for a missing or empty string. */
  function TagMap(tags: Option<string>): map<string, string>
  {
    if tags.None? || tags.value == "" then map[]
    else LastWins(TagPairs(Split(tags.value, ',')))
  }

  /** ParseTags: the pairs of the accepted segments, inserted one by one into a map. */
  method ParseTags(tags: Option<string>) returns (m: map<string, string>)
    ensures m == TagMap(tags)
  {
    m := map[];
    if tags.None? || tags.value == "" {
      return;
    }
    var segments := Split(tags.value, ',');
    for i := 0 to |segments|
      invariant m == LastWins(TagPairs(segments[..i]))
    {
      var parts := Split(segments[i], '=');
      assert segments[..i + 1][..i] == segments[..i];
      if |parts| == 2 && |parts[0]| > 0 && |parts[1]| > 0 {
        var key, value := TrimSpace(parts[0]), TrimSpace(parts[1]);
        LastWinsSnoc(TagPairs(segments[..i]), (key, value));
        m := m[key := value];
      }
    }
    assert segments[..|segments|] == segments;
  }

  /** Adding a segment adds its pair, if it has one. */
  lemma TagPairsSnoc(segments: seq<string>, segment: string)
    ensures TagPairs(segments + [segment]) == TagPairs(segments) + (if Tag(segment).Some? then [Tag(segment).value] else [])
  {
    assert (segments + [segment])[..|segments|] == segments;
  }

  /** Every pair comes from an accepted segment. */
  lemma {:induction false} TagPairsFromSegments(segments: seq<string>)
    ensures forall j :: 0 <= j < |TagPairs(segments)| ==>
      exists i :: 0 <= i < |segments| && Tag(segments[i]) == Some(TagPairs(segments)[j])
    decreases |segments|
  {
    if segments != [] {
      var front := segments[..|segments| - 1];
      var last := segments[|segments| - 1];
      TagPairsFromSegments(front);
      TagPairsSnoc(front, last);
      assert front + [last] == segments;
      var pairs, frontPairs := TagPairs(segments), TagPairs(front);
      forall j | 0 <= j < |pairs|
        ensures exists i :: 0 <= i < |segments| && Tag(segments[i]) == Some(pairs[j])
      {
        if j < |frontPairs| {
          var i :| 0 <= i < |front| && Tag(front[i]) == Some(frontPairs[j]);
          assert segments[i] == front[i] && pairs[j] == frontPairs[j];
        } else {
          assert Tag(segments[|segments| - 1]) == Some(pairs[j]);
        }
      }
      assert forall j :: 0 <= j < |pairs| ==> exists i :: 0 <= i < |segments| && Tag(segments[i]) == Some(pairs[j]);
    } else {
      assert TagPairs(segments) == [];
    }
  }

  /** Every accepted segment gives its pair. */
  lemma {:induction false} SegmentsGiveTagPairs(segments: seq<string>)
    ensures forall i :: 0 <= i < |segments| && Tag(segments[i]).Some? ==> Tag(segments[i]).value in TagPairs(segments)
    decreases |segments|
  {
    if segments != [] {
      var front := segments[..|segments| - 1];
      var last := segments[|segments| - 1];
      SegmentsGiveTagPairs(front);
      TagPairsSnoc(front, last);
      assert front + [last] == segments;
      forall i | 0 <= i < |segments| && Tag(segments[i]).Some?
        ensures Tag(segments[i]).value in TagPairs(segments)
      {
        if i < |front| {
          assert segments[i] == front[i];
        }
      }
    }
  }

  /** Every pair's key and value carry no surrounding white space. */
  lemma {:induction false} TagPairsTrimmed(segments: seq<string>)
    ensures forall j :: 0 <= j < |TagPairs(segments)| ==>
      TrimSpace(TagPairs(segments)[j].0) == TagPairs(segments)[j].0
      && TrimSpace(TagPairs(segments)[j].1) == TagPairs(segments)[j].1
    decreases |segments|
  {
    if segments != [] {
      TagPairsTrimmed(segments[..|segments| - 1]);
      var last := segments[|segments| - 1];
      if Tag(last).Some? {
        var parts := Split(last, '=');
        TrimSpaceIdempotent(parts[0]);
        TrimSpaceIdempotent(parts[1]);
      }
    }
  }

  /** Every accepted segment's key is in the map. */
  lemma KeysFromSegments(segments: seq<string>)
    ensures forall i :: 0 <= i < |segments| && Tag(segments[i]).Some? ==>
      Tag(segments[i]).value.0 in LastWins(TagPairs(segments))
  {
    var pairs := TagPairs(segments);
    SegmentsGiveTagPairs(segments);
    LastWinsDomain(pairs);
    forall i | 0 <= i < |segments| && Tag(segments[i]).Some?
      ensures Tag(segments[i]).value.0 in LastWins(pairs)
    {
      var j :| 0 <= j < |pairs| && pairs[j] == Tag(segments[i]).value;
    }
  }

  /** Every entry of the map is the pair of an accepted segment. */
  lemma EntriesFromSegments(segments: seq<string>)
    ensures forall k :: k in LastWins(TagPairs(segments)) ==>
      exists i :: 0 <= i < |segments| && Tag(segments[i]) == Some((k, LastWins(TagPairs(segments))[k]))
  {
    var pairs := TagPairs(segments);
    var m := LastWins(pairs);
    TagPairsFromSegments(segments);
    LastWinsDomain(pairs);
    forall k | k in m
      ensures exists i :: 0 <= i < |segments| && Tag(segments[i]) == Some((k, m[k]))
    {
      var j :| 0 <= j < |pairs| && pairs[j].0 == k && pairs[j].1 == m[k];
      assert pairs[j] == (k, m[k]);
    }
  }

  /** The keys of the map include the key of every accepted segment. */
  lemma TagMapKeys(s: string)
    requires s != ""
    ensures forall i :: 0 <= i < |Split(s, ',')| && Tag(Split(s, ',')[i]).Some? ==>
      Tag(Split(s, ',')[i]).value.0 in TagMap(Some(s))
  {
    KeysFromSegments(Split(s, ','));
  }

  /** There are no more entries than segments. */
  lemma TagMapSize(s: string)
    ensures |TagMap(Some(s))| <= |Split(s, ',')|
  {
    LastWinsDomain(TagPairs(Split(s, ',')));
  }

  /** Keys and values of the map carry no surrounding white space. */
  lemma TagMapTrimmed(tags: Option<string>)
    ensures forall k :: k in TagMap(tags) ==> TrimSpace(k) == k && TrimSpace(TagMap(tags)[k]) == TagMap(tags)[k]
  {
    if tags.Some? && tags.value != "" {
      var pairs := TagPairs(Split(tags.value, ','));
      TagPairsTrimmed(Split(tags.value, ','));
      LastWinsDomain(pairs);
    }
  }

  // ---------------------------------------------------------------------------
  // Writing a tag filter and reading it back
  // ---------------------------------------------------------------------------

  /** A pair that can be written as `key=value` and read back unchanged. */
  predicate WritablePair(p: (string, string))
  {
    && |p.0| > 0 && |p.1| > 0
    && '=' !in p.0 && '=' !in p.1 && ',' !in p.0 && ',' !in p.1
    && TrimSpace(p.0) == p.0 && TrimSpace(p.1) == p.1
  }

  /** The `key=value` segments of the pairs. */
  function TagSegments(pairs: seq<(string, string)>): (segments: seq<string>)
    ensures |segments| == |pairs|
  {
    if pairs == [] then []
    else
      var last := pairs[|pairs| - 1];
      TagSegments(pairs[..|pairs| - 1]) + [last.0 + "=" + last.1]
  }

  /** The filter string for the pairs. */
  function FormatTags(pairs: seq<(string, string)>): string
  {
    Join(TagSegments(pairs), ',')
  }

  /** Reading the segments of writable pairs gives the pairs back. */
  lemma {:induction false} TagPairsOfSegments(pairs: seq<(string, string)>)
    requires forall j :: 0 <= j < |pairs| ==> WritablePair(pairs[j])
    ensures TagPairs(TagSegments(pairs)) == pairs
    decreases |pairs|
  {
    if pairs != [] {
      var front := pairs[..|pairs| - 1];
      var last := pairs[|pairs| - 1];
      var segment := last.0 + "=" + last.1;
      assert WritablePair(last);
      forall j | 0 <= j < |front|
        ensures WritablePair(front[j])
      {
        assert front[j] == pairs[j];
      }
      var segments := TagSegments(front);
      TagPairsOfSegments(front);
      assert TagSegments(pairs) == segments + [segment];
      TagPairsWritableSnoc(segments, front, last);
      FrontLast(pairs);
    }
  }

  /** Adding the segment of a writable pair adds that pair. */
  lemma TagPairsWritableSnoc(segments: seq<string>, pairs: seq<(string, string)>, p: (string, string))
    requires TagPairs(segments) == pairs && WritablePair(p)
    ensures TagPairs(segments + [p.0 + "=" + p.1]) == pairs + [p]
  {
    TagOfPair(p.0, p.1);
    TagPairsSnoc(segments, p.0 + "=" + p.1);
  }

  /** Segments are never empty, and those of pairs without commas hold no comma. */
  lemma {:induction false} SegmentsWithoutComma(pairs: seq<(string, string)>)
    requires forall j :: 0 <= j < |pairs| ==> ',' !in pairs[j].0 && ',' !in pairs[j].1
    ensures forall i :: 0 <= i < |pairs| ==> ',' !in TagSegments(pairs)[i] && |TagSegments(pairs)[i]| > 0
    decreases |pairs|
  {
    if pairs != [] {
      var front := pairs[..|pairs| - 1];
      var last := pairs[|pairs| - 1];
      SegmentsWithoutComma(front);
      var segments := TagSegments(pairs);
      assert segments == TagSegments(front) + [last.0 + "=" + last.1];
      forall i | 0 <= i < |pairs|
        ensures ',' !in segments[i] && |segments[i]| > 0
      {
        if i < |front| {
          assert segments[i] == TagSegments(front)[i];
        }
      }
    }
  }

  /** Parsing a written filter gives the map of its pairs, the last pair winning. */
  lemma ParseFormatted(pairs: seq<(string, string)>)
    requires forall j :: 0 <= j < |pairs| ==> WritablePair(pairs[j])
    ensures TagMap(Some(FormatTags(pairs))) == LastWins(pairs)
  {
    var s := FormatTags(pairs);
    var segments := TagSegments(pairs);
    TagPairsOfSegments(pairs);
    if pairs != [] {
      WritableWithoutComma(pairs);
      SegmentsWithoutComma(pairs);
      SplitJoin(segments, ',');
      JoinNonEmpty(segments, ',');
      TagMapOfSegments(s, segments);
    }
  }

  lemma TagMapOfSegments(s: string, segments: seq<string>)
    requires |s| > 0 && Split(s, ',') == segments
    ensures TagMap(Some(s)) == LastWins(TagPairs(segments))
  {
  }

  lemma WritableWithoutComma(pairs: seq<(string, string)>)
    requires forall j :: 0 <= j < |pairs| ==> WritablePair(pairs[j])
    ensures forall j :: 0 <= j < |pairs| ==> ',' !in pairs[j].0 && ',' !in pairs[j].1
  {
  }

  /** Joining pieces of which the first is non-empty gives a non-empty string. */
  lemma JoinNonEmpty(parts: seq<string>, sep: char)
    requires |parts| >= 1 && |parts[0]| > 0
    ensures |Join(parts, sep)| > 0
  {
  }
}
