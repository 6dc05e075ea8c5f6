/** The few string operations the program uses: splitting at a character, finding a character, trimming. */
module Text {

  /** The parts of `s` between occurrences of `c`; there is always at least one. */
  function Split(s: string, c: char): (parts: seq<string>)
    ensures |parts| >= 1
  {
    if s == [] then [[]]
    else
      var rest := Split(s[1..], c);
      if s[0] == c then [[]] + rest else [[s[0]] + rest[0]] + rest[1..]
  }

  function Join(parts: seq<string>, c: char): string {
    if parts == [] then []
    else if |parts| == 1 then parts[0]
    else parts[0] + [c] + Join(parts[1..], c)
  }

  ghost predicate Without(parts: seq<string>, c: char) {
    forall i | 0 <= i < |parts| :: c !in parts[i]
  }

  /** Splitting loses nothing, and no part contains the separator. */
  lemma {:induction false} SplitThenJoin(s: string, c: char)
    ensures Join(Split(s, c), c) == s && Without(Split(s, c), c)
  {
    if s != [] {
      SplitThenJoin(s[1..], c);
      var rest, parts := Split(s[1..], c), Split(s, c);
      if s[0] == c {
        assert parts[1..] == rest;
        assert Join(parts, c) == [] + [c] + Join(rest, c);
      } else {
        assert parts[1..] == rest[1..];
        assert Join(parts, c) == [s[0]] + Join(rest, c);
      }
    }
  }

  /** Joined parts without the separator are what splitting gives back. */
  lemma {:induction false} JoinThenSplit(parts: seq<string>, c: char)
    requires |parts| >= 1 && Without(parts, c)
    ensures Split(Join(parts, c), c) == parts
    decreases |parts|, if |parts| >= 1 then |parts[0]| else 0
  {
    var joined := Join(parts, c);
    if parts[0] == [] {
      if |parts| > 1 {
        assert joined[1..] == Join(parts[1..], c);
        JoinThenSplit(parts[1..], c);
      }
    } else {
      var shorter := [parts[0][1..]] + parts[1..];
      assert shorter[1..] == parts[1..];
      assert joined[1..] == Join(shorter, c);
      JoinThenSplit(shorter, c);
      assert joined[0] == parts[0][0];
      assert parts[0] == [joined[0]] + shorter[0];
      assert Split(joined, c) == [parts[0]] + parts[1..];
    }
  }

  /** The first part is what precedes the first separator. */
  lemma {:induction false} FirstPart(prefix: string, c: char, suffix: string)
    requires c !in prefix
    ensures Split(prefix + [c] + suffix, c)[0] == prefix
    ensures Split(prefix, c)[0] == prefix
  {
    if prefix == [] {
      assert [c] + suffix == prefix + [c] + suffix;
    } else {
      FirstPart(prefix[1..], c, suffix);
      assert (prefix + [c] + suffix)[1..] == prefix[1..] + [c] + suffix;
    }
  }

  /** A prefix without the separator is taken over into the first part. */
  lemma {:induction false} FirstPartAfter(prefix: string, s: string, c: char)
    requires c !in prefix
    ensures Split(prefix + s, c)[0] == prefix + Split(s, c)[0]
  {
    if prefix == [] {
      assert prefix + s == s;
    } else {
      FirstPartAfter(prefix[1..], s, c);
      assert (prefix + s)[1..] == prefix[1..] + s;
    }
  }

  /** The first position of `c`, or -1. */
  function Index(s: string, c: char): (i: int)
    ensures -1 <= i < |s|
    ensures i >= 0 ==> s[i] == c && c !in s[..i]
    ensures i == -1 <==> c !in s
  {
    if s == [] then -1
    else if s[0] == c then 0
    else
      var i := Index(s[1..], c);
      assert i >= 0 ==> s[..i + 1] == [s[0]] + s[1..][..i];
      if i < 0 then -1 else i + 1
  }

  lemma IndexAfter(prefix: string, c: char, suffix: string)
    requires c !in prefix
    ensures Index(prefix + [c] + suffix, c) == |prefix|
  {
    var s := prefix + [c] + suffix;
    assert s[|prefix|] == c;
    assert forall j | 0 <= j < |prefix| :: s[j] == prefix[j];
    assert forall j | 0 <= j < Index(s, c) :: s[j] == s[..Index(s, c)][j];
  }

  function TrimLeft(s: string, c: char): string {
    if s != [] && s[0] == c then TrimLeft(s[1..], c) else s
  }

  function TrimRight(s: string, c: char): string {
    if s != [] && s[|s| - 1] == c then TrimRight(s[..|s| - 1], c) else s
  }

  function Trim(s: string, c: char): string {
    TrimRight(TrimLeft(s, c), c)
  }

  ghost predicate Only(s: string, c: char) {
    forall i | 0 <= i < |s| :: s[i] == c
  }

  /** Trimming takes away exactly the surrounding run of `c`. */
  lemma TrimTakesEnds(s: string, c: char) returns (left: string, right: string)
    ensures Only(left, c) && Only(right, c) && s == left + Trim(s, c) + right
    ensures Trim(s, c) != [] ==> Trim(s, c)[0] != c && Trim(s, c)[|Trim(s, c)| - 1] != c
  {
    left := TrimLeftTakes(s, c);
    right := TrimRightTakes(TrimLeft(s, c), c);
  }

  lemma {:induction false} TrimLeftTakes(s: string, c: char) returns (left: string)
    ensures Only(left, c) && s == left + TrimLeft(s, c)
    ensures TrimLeft(s, c) != [] ==> TrimLeft(s, c)[0] != c
  {
    left := [];
    if s != [] && s[0] == c {
      left := TrimLeftTakes(s[1..], c);
      left := [c] + left;
    }
  }

  lemma {:induction false} TrimRightTakes(s: string, c: char) returns (right: string)
    ensures Only(right, c) && s == TrimRight(s, c) + right
    ensures TrimRight(s, c) != [] ==> TrimRight(s, c)[|TrimRight(s, c)| - 1] != c && TrimRight(s, c)[0] == s[0]
  {
    right := [];
    if s != [] && s[|s| - 1] == c {
      right := TrimRightTakes(s[..|s| - 1], c);
      right := right + [c];
    }
  }
}
