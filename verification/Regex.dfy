/** Anchored patterns over character classes, with a backtracking matcher. */
module Regex {

  datatype Class = Digit | Word | Exactly(c: char)

  datatype Atom = Once(of: Class) | Many(of: Class)

  type Pattern = seq<Atom>

  predicate InClass(of: Class, c: char) {
    match of
    case Digit => '0' <= c <= '9'
    case Word => '0' <= c <= '9' || 'A' <= c <= 'Z' || 'a' <= c <= 'z' || c == '_'
    case Exactly(d) => c == d
  }

  /** The whole string matches the whole pattern; `Many` takes one or more characters. */
  predicate Matches(pattern: Pattern, s: string)
    decreases |s|, |pattern|
  {
    if pattern == [] then s == []
    else if s == [] || !InClass(pattern[0].of, s[0]) then false
    else Matches(pattern[1..], s[1..]) || (pattern[0].Many? && Matches(pattern, s[1..]))
  }

  function Literal(text: string): Pattern {
    seq(|text|, i requires 0 <= i < |text| => Once(Exactly(text[i])))
  }

  predicate All(of: Class, s: string) {
    forall i | 0 <= i < |s| :: InClass(of, s[i])
  }

  // ---------------------------------------------------------------- what the matcher accepts

  lemma {:induction false} MatchesConcat(first: Pattern, second: Pattern, s: string) returns (k: nat)
    requires Matches(first + second, s)
    ensures k <= |s| && Matches(first, s[..k]) && Matches(second, s[k..])
    decreases |s|, |first|
  {
    var both := first + second;
    if first == [] {
      k := 0;
      assert both == second;
    } else if Matches(both[1..], s[1..]) {
      assert both[1..] == first[1..] + second;
      k := MatchesConcat(first[1..], second, s[1..]);
      k := k + 1;
      assert s[..k][1..] == s[1..][..k - 1] && s[k..] == s[1..][k - 1..];
    } else {
      k := MatchesConcat(first, second, s[1..]);
      k := k + 1;
      assert s[..k][1..] == s[1..][..k - 1] && s[k..] == s[1..][k - 1..];
    }
  }

  lemma {:induction false} ConcatMatches(first: Pattern, second: Pattern, s: string, t: string)
    requires Matches(first, s) && Matches(second, t)
    ensures Matches(first + second, s + t)
    decreases |s|, |first|
  {
    if first == [] {
      assert s + t == t && first + second == second;
    } else {
      assert (first + second)[1..] == first[1..] + second && (s + t)[1..] == s[1..] + t;
      if Matches(first[1..], s[1..]) {
        ConcatMatches(first[1..], second, s[1..], t);
      } else {
        ConcatMatches(first, second, s[1..], t);
      }
    }
  }

  lemma {:induction false} LiteralMatches(text: string, s: string)
    ensures Matches(Literal(text), s) <==> s == text
  {
    if text != [] {
      assert Literal(text)[1..] == Literal(text[1..]);
      if s != [] {
        LiteralMatches(text[1..], s[1..]);
        assert s == [s[0]] + s[1..] && text == [text[0]] + text[1..];
      }
    }
  }

  lemma {:induction false} ManyMatches(of: Class, s: string)
    ensures Matches([Many(of)], s) <==> s != [] && All(of, s)
  {
    if s != [] {
      ManyMatches(of, s[1..]);
      assert [Many(of)][1..] == [];
      assert s == [s[0]] + s[1..];
    }
  }

  lemma {:induction false} CountMatches(of: Class, n: nat, s: string)
    ensures Matches(seq(n, _ => Once(of)), s) <==> |s| == n && All(of, s)
  {
    if n > 0 && s != [] {
      assert seq(n, _ => Once(of))[1..] == seq(n - 1, _ => Once(of));
      CountMatches(of, n - 1, s[1..]);
      assert s == [s[0]] + s[1..];
    }
  }
}
