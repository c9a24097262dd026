/** Small shared vocabulary: optional values, raised-or-returned outcomes and Python's `str.join`. */
module Common {

  datatype Option<+T> = None | Some(value: T)

  /** The result of a Python call that may raise. The exception's type and message are not modelled. */
  datatype Outcome<+T> = Ok(value: T) | Raised

  /** `s` begins with `p`. */
  predicate StartsWith(s: string, p: string) {
    |p| <= |s| && s[..|p|] == p
  }

  /** `s` finishes with `p`. */
  predicate EndsWith(s: string, p: string) {
    |p| <= |s| && s[|s| - |p|..] == p
  }

  /** Python's string join: the parts in order with `sep` between neighbours. */
  function Join(sep: string, parts: seq<string>): (r: string)
    ensures |parts| == 0 ==> r == ""
    ensures |parts| > 0 ==> |parts[0]| <= |r| && |parts[|parts| - 1]| <= |r|
    decreases |parts|
  {
    if |parts| == 0 then ""
    else if |parts| == 1 then parts[0]
    else parts[0] + sep + Join(sep, parts[1..])
  }

  /** A non-empty join starts with the first part and finishes with the last. */
  lemma {:induction false} JoinEnds(sep: string, parts: seq<string>)
    requires |parts| > 0
    ensures StartsWith(Join(sep, parts), parts[0]) && EndsWith(Join(sep, parts), parts[|parts| - 1])
    decreases |parts|
  {
    if |parts| > 1 {
      var rest := parts[1..];
      JoinEnds(sep, rest);
      var tail := Join(sep, rest);
      assert Join(sep, parts) == parts[0] + sep + tail;
      assert rest[|rest| - 1] == parts[|parts| - 1];
      assert (parts[0] + sep + tail)[..|parts[0]|] == parts[0];
      assert (parts[0] + sep + tail)[|parts[0] + sep + tail| - |tail|..] == tail;
    }
  }

  /** Sum of the lengths of the parts. */
  function TotalLength(parts: seq<string>): nat
    decreases |parts|
  {
    if |parts| == 0 then 0 else |parts[0]| + TotalLength(parts[1..])
  }

  /** The joined string holds every character of every part and one separator between neighbours. */
  lemma {:induction false} JoinLength(sep: string, parts: seq<string>)
    requires |parts| > 0
    ensures |Join(sep, parts)| == TotalLength(parts) + |sep| * (|parts| - 1)
    decreases |parts|
  {
    if |parts| > 1 {
      var rest := parts[1..];
      JoinLength(sep, rest);
      assert Join(sep, parts) == parts[0] + sep + Join(sep, rest);
      assert TotalLength(parts) == |parts[0]| + TotalLength(rest);
    }
  }

  /** Joining two non-empty lists is joining each and putting one separator between them. */
  lemma {:induction false} JoinAppend(sep: string, a: seq<string>, b: seq<string>)
    requires |a| > 0 && |b| > 0
    ensures Join(sep, a + b) == Join(sep, a) + sep + Join(sep, b)
    decreases |a|
  {
    if |a| == 1 {
      assert a + b == [a[0]] + b;
      assert (a + b)[1..] == b;
    } else {
      assert (a + b)[0] == a[0];
      assert (a + b)[1..] == a[1..] + b;
      JoinAppend(sep, a[1..], b);
    }
  }

  /** Every part occurs, contiguously, inside the joined string. */
  lemma {:induction false} JoinContains(sep: string, parts: seq<string>, i: nat)
    requires i < |parts|
    ensures exists pre: string, post: string :: Join(sep, parts) == pre + parts[i] + post
    decreases |parts|
  {
    if |parts| == 1 {
      assert Join(sep, parts) == "" + parts[0] + "";
    } else {
      var rest := parts[1..];
      assert Join(sep, parts) == parts[0] + sep + Join(sep, rest);
      if i == 0 {
        assert Join(sep, parts) == "" + parts[0] + (sep + Join(sep, rest));
      } else {
        JoinContains(sep, rest, i - 1);
        var pre: string, post: string :| Join(sep, rest) == pre + rest[i - 1] + post;
        assert rest[i - 1] == parts[i];
        assert Join(sep, parts) == (parts[0] + sep + pre) + parts[i] + post;
      }
    }
  }
}
