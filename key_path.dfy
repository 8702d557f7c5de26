/** The field-path mini-language of keyed lookup: a key such as
    "Channel.ChanId" names a path of nested object fields. */
module KeyPath {

  /** A path segment: non-empty and free of the separator. */
  predicate IsSegment(s: string)
  {
    s != [] && '.' !in s
  }

  /** The segments of `key`, split at every '.', with empty pieces dropped
      (the behaviour of Swift's `split(separator:)`). */
  function Split(key: string): (segments: seq<string>)
    ensures forall i :: 0 <= i < |segments| ==> IsSegment(segments[i])
  {
    SplitFrom(key, [])
  }

  /** Splits `rest`, where `pending` holds the characters of the segment read so far. */
  function SplitFrom(rest: string, pending: string): (segments: seq<string>)
    requires '.' !in pending
    ensures forall i :: 0 <= i < |segments| ==> IsSegment(segments[i])
    decreases |rest|
  {
    if rest == [] then Flush(pending)
    else if rest[0] == '.' then Flush(pending) + SplitFrom(rest[1..], [])
    else SplitFrom(rest[1..], pending + [rest[0]])
  }

  function Flush(pending: string): seq<string>
  {
    if pending == [] then [] else [pending]
  }

  /** The key naming a path: its segments separated by '.'. */
  function Join(segments: seq<string>): (key: string)
    ensures |segments| == 1 ==> key == segments[0]
  {
    if segments == [] then []
    else if |segments| == 1 then segments[0]
    else segments[0] + "." + Join(segments[1..])
  }

  /** Reading a run of separator-free characters only extends the pending segment. */
  lemma {:induction false} SplitFromSegment(a: string, rest: string, pending: string)
    requires '.' !in a && '.' !in pending
    ensures SplitFrom(a + rest, pending) == SplitFrom(rest, pending + a)
    decreases |a|
  {
    if a == [] {
      assert a + rest == rest && pending + a == pending;
    } else {
      assert (a + rest)[0] == a[0] && a[0] != '.';
      assert (a + rest)[1..] == a[1..] + rest;
      SplitFromSegment(a[1..], rest, pending + [a[0]]);
      assert pending + [a[0]] + a[1..] == pending + a;
    }
  }

  /** Splitting the key built from a path gives back that path. */
  lemma {:induction false} SplitJoin(segments: seq<string>)
    requires forall i :: 0 <= i < |segments| ==> IsSegment(segments[i])
    ensures Split(Join(segments)) == segments
    decreases |segments|
  {
    if |segments| == 1 {
      SplitFromSegment(segments[0], [], []);
      assert segments[0] + [] == segments[0];
      assert [] + segments[0] == segments[0];
    } else if |segments| > 1 {
      var head, tail := segments[0], segments[1..];
      SplitJoin(tail);
      var rest := "." + Join(tail);
      assert Join(segments) == head + rest;
      SplitFromSegment(head, rest, []);
      assert [] + head == head;
      assert rest[0] == '.' && rest[1..] == Join(tail);
    }
  }

  /** A key without a separator names a single field. */
  lemma SplitSingle(key: string)
    requires IsSegment(key)
    ensures Split(key) == [key]
  {
    SplitJoin([key]);
  }

  /** A key "a.b" names field `b` of the object at field `a`. */
  lemma SplitPair(a: string, b: string)
    requires IsSegment(a) && IsSegment(b)
    ensures Split(a + "." + b) == [a, b]
  {
    SplitJoin([a, b]);
    assert Join([a, b]) == a + "." + b;
  }
}
