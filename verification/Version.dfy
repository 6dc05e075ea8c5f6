/** Splitting a git version into major and minor. */
module Version {
  import opened Regex
  import opened Text

  // ---------------------------------------------------------------- the four patterns

  function DatePattern(): Pattern {
    Literal("v") + seq(8, _ => Once(Digit))
  }

  function NumbersPattern(): Pattern {
    [Many(Digit)] + (Literal(".") + ([Many(Digit)] + (Literal(".") + [Many(Digit)])))
  }

  function SuffixPattern(): Pattern {
    Literal("-") + ([Many(Word)] + (Literal("-") + [Many(Word)]))
  }

  const HELM := "-descheduler-helm-chart-"

  function TagPattern(): Pattern {
    DatePattern() + (Literal("-v") + NumbersPattern())
  }

  function BuildPattern(): Pattern {
    DatePattern() + (Literal("-v") + (NumbersPattern() + SuffixPattern()))
  }

  function HelmPattern(): Pattern {
    DatePattern() + (Literal(HELM) + NumbersPattern())
  }

  function HelmBuildPattern(): Pattern {
    DatePattern() + (Literal(HELM) + (NumbersPattern() + SuffixPattern()))
  }

  // ---------------------------------------------------------------- the printed forms

  ghost predicate Number(s: string) {
    s != [] && forall i | 0 <= i < |s| :: '0' <= s[i] <= '9'
  }

  ghost predicate IsWord(s: string) {
    s != [] && forall i | 0 <= i < |s| ::
      '0' <= s[i] <= '9' || 'A' <= s[i] <= 'Z' || 'a' <= s[i] <= 'z' || s[i] == '_'
  }

  ghost predicate Date(s: string) {
    |s| == 8 && forall i | 0 <= i < |s| :: '0' <= s[i] <= '9'
  }

  /** The pattern language's two classes are the ranges by which the printed fields are defined. */
  lemma ClassesAreRanges(s: string)
    ensures s != [] && All(Digit, s) <==> Number(s)
    ensures s != [] && All(Word, s) <==> IsWord(s)
    ensures |s| == 8 && All(Digit, s) <==> Date(s)
  {
  }

  function Numbers(x: string, y: string, z: string): string {
    x + "." + y + "." + z
  }

  function Suffix(a: string, b: string): string {
    "-" + a + "-" + b
  }

  /** A run of one class, a separator, and a rest. */
  lemma FieldMatches(of: Class, separator: string, rest: Pattern, s: string) returns (field: string, t: string)
    requires Matches([Many(of)] + (Literal(separator) + rest), s)
    ensures field != [] && All(of, field) && Matches(rest, t) && s == field + separator + t
  {
    hide Matches, Literal, All;
    var i := MatchesConcat([Many(of)], Literal(separator) + rest, s);
    field := s[..i];
    ManyMatches(of, field);
    var tail := s[i..];
    var j := MatchesConcat(Literal(separator), rest, tail);
    LiteralMatches(separator, tail[..j]);
    t := tail[j..];
    assert s == field + (tail[..j] + t);
  }

  lemma NumbersMatch(s: string) returns (x: string, y: string, z: string)
    requires Matches(NumbersPattern(), s)
    ensures Number(x) && Number(y) && Number(z) && s == Numbers(x, y, z)
  {
    hide Matches, Literal, All;
    var m: Pattern := [Many(Digit)];
    var t;
    x, t := FieldMatches(Digit, ".", m + (Literal(".") + m), s);
    y, z := FieldMatches(Digit, ".", m, t);
    ManyMatches(Digit, z);
    ClassesAreRanges(x);
    ClassesAreRanges(y);
    ClassesAreRanges(z);
    hide Number;
    assert s == x + "." + (y + "." + z);
  }

  lemma MatchNumbers(x: string, y: string, z: string)
    requires Number(x) && Number(y) && Number(z)
    ensures Matches(NumbersPattern(), Numbers(x, y, z))
  {
    hide Matches, Literal;
    var m: Pattern := [Many(Digit)];
    ManyMatches(Digit, x);
    ManyMatches(Digit, y);
    ManyMatches(Digit, z);
    ClassesAreRanges(x);
    ClassesAreRanges(y);
    ClassesAreRanges(z);
    hide All, Number;
    LiteralMatches(".", ".");
    ConcatMatches(Literal("."), m, ".", z);
    ConcatMatches(m, Literal(".") + m, y, "." + z);
    ConcatMatches(Literal("."), m + (Literal(".") + m), ".", y + ("." + z));
    ConcatMatches(m, Literal(".") + (m + (Literal(".") + m)), x, "." + (y + ("." + z)));
    assert Numbers(x, y, z) == x + ("." + (y + ("." + z)));
  }

  lemma SuffixMatches(s: string) returns (a: string, b: string)
    requires Matches(SuffixPattern(), s)
    ensures IsWord(a) && IsWord(b) && s == Suffix(a, b)
  {
    hide Matches, Literal, All;
    var m: Pattern := [Many(Word)];
    var j := MatchesConcat(Literal("-"), m + (Literal("-") + m), s);
    LiteralMatches("-", s[..j]);
    a, b := FieldMatches(Word, "-", m, s[j..]);
    ManyMatches(Word, b);
    ClassesAreRanges(a);
    ClassesAreRanges(b);
    hide IsWord;
    assert s == "-" + (a + "-" + b);
  }

  lemma MatchSuffix(a: string, b: string)
    requires IsWord(a) && IsWord(b)
    ensures Matches(SuffixPattern(), Suffix(a, b))
  {
    hide Matches, Literal;
    var m: Pattern := [Many(Word)];
    ManyMatches(Word, a);
    ManyMatches(Word, b);
    ClassesAreRanges(a);
    ClassesAreRanges(b);
    hide All, IsWord;
    LiteralMatches("-", "-");
    ConcatMatches(Literal("-"), m, "-", b);
    ConcatMatches(m, Literal("-") + m, a, "-" + b);
    ConcatMatches(Literal("-"), m + (Literal("-") + m), "-", a + ("-" + b));
    assert Suffix(a, b) == "-" + (a + ("-" + b));
  }

  /** A date, a literal and a rest. */
  lemma HeadMatches(literal: string, rest: Pattern, s: string) returns (d: string, t: string)
    requires Matches(DatePattern() + (Literal(literal) + rest), s)
    ensures Date(d) && Matches(rest, t) && s == "v" + d + literal + t
  {
    hide Matches, Literal;
    var i := MatchesConcat(DatePattern(), Literal(literal) + rest, s);
    var head, s1 := s[..i], s[i..];
    var k := MatchesConcat(Literal("v"), seq(8, _ => Once(Digit)), head);
    LiteralMatches("v", head[..k]);
    d := head[k..];
    CountMatches(Digit, 8, d);
    ClassesAreRanges(d);
    var j := MatchesConcat(Literal(literal), rest, s1);
    LiteralMatches(literal, s1[..j]);
    t := s1[j..];
    assert head == "v" + d && s1 == literal + t;
  }

  lemma MatchHead(literal: string, rest: Pattern, d: string, t: string)
    requires Date(d) && Matches(rest, t)
    ensures Matches(DatePattern() + (Literal(literal) + rest), "v" + d + literal + t)
  {
    hide Matches, Literal;
    LiteralMatches("v", "v");
    CountMatches(Digit, 8, d);
    ClassesAreRanges(d);
    ConcatMatches(Literal("v"), seq(8, _ => Once(Digit)), "v", d);
    LiteralMatches(literal, literal);
    ConcatMatches(Literal(literal), rest, literal, t);
    ConcatMatches(DatePattern(), Literal(literal) + rest, "v" + d, literal + t);
    assert "v" + d + literal + t == ("v" + d) + (literal + t);
  }

  // ---------------------------------------------------------------- formats

  datatype Format = Tag | Build | Helm | HelmBuild

  datatype Fields = Fields(date: string, x: string, y: string, z: string, a: string, b: string)

  function PatternOf(format: Format): Pattern {
    match format
    case Tag => TagPattern()
    case Build => BuildPattern()
    case Helm => HelmPattern()
    case HelmBuild => HelmBuildPattern()
  }

  function LiteralOf(format: Format): string {
    if format.Tag? || format.Build? then "-v" else HELM
  }

  function Rest(format: Format, f: Fields): string {
    if format.Tag? || format.Helm? then Numbers(f.x, f.y, f.z) else Numbers(f.x, f.y, f.z) + Suffix(f.a, f.b)
  }

  function Print(format: Format, f: Fields): string {
    "v" + f.date + LiteralOf(format) + Rest(format, f)
  }

  ghost predicate WellFormed(f: Fields) {
    Date(f.date) && Number(f.x) && Number(f.y) && Number(f.z) && IsWord(f.a) && IsWord(f.b)
  }

  predicate Accepts(format: Format, version: string) {
    Matches(PatternOf(format), version)
  }

  function RestPattern(format: Format): Pattern {
    if format.Tag? || format.Helm? then NumbersPattern() else NumbersPattern() + SuffixPattern()
  }

  /** What follows the date and the literal, under any date. */
  lemma RestIsPrinted(format: Format, date: string, t: string) returns (f: Fields)
    requires Matches(RestPattern(format), t) && Date(date)
    ensures WellFormed(f) && f.date == date && t == Rest(format, f)
  {
    assert IsWord("0");
    hide Matches, NumbersPattern, SuffixPattern, Date, Number, IsWord, Numbers, Suffix;
    var x, y, z;
    if format.Tag? || format.Helm? {
      x, y, z := NumbersMatch(t);
      f := Fields(date, x, y, z, "0", "0");
    } else {
      var k := MatchesConcat(NumbersPattern(), SuffixPattern(), t);
      x, y, z := NumbersMatch(t[..k]);
      var a, b := SuffixMatches(t[k..]);
      f := Fields(date, x, y, z, a, b);
      assert t == t[..k] + t[k..];
    }
  }

  lemma AcceptedIsPrinted(format: Format, version: string) returns (f: Fields)
    requires Accepts(format, version)
    ensures WellFormed(f) && version == Print(format, f)
  {
    hide Matches, Literal, DatePattern, NumbersPattern, SuffixPattern, WellFormed, Rest, Date;
    var d, t := HeadMatches(LiteralOf(format), RestPattern(format), version);
    f := RestIsPrinted(format, d, t);
  }

  lemma PrintedIsAccepted(format: Format, f: Fields)
    requires WellFormed(f)
    ensures Accepts(format, Print(format, f))
  {
    hide Matches, DatePattern, NumbersPattern, SuffixPattern;
    MatchNumbers(f.x, f.y, f.z);
    MatchSuffix(f.a, f.b);
    ConcatMatches(NumbersPattern(), SuffixPattern(), Numbers(f.x, f.y, f.z), Suffix(f.a, f.b));
    MatchHead(LiteralOf(format), RestPattern(format), f.date, Rest(format, f));
  }

  // ---------------------------------------------------------------- splitting

  /** Both split indices are in range for an accepted string: the function needs this to be defined. */
  function SplitVersion(version: string): (string, string) {
    if version == "" then ("", "")
    else if Accepts(Tag, version) || Accepts(Build, version) then
      SplitInRange(version);
      var semVer := Split(version, '-')[1];
      (Trim(Split(semVer, '.')[0], 'v'), Split(semVer, '.')[1] + "." + Split(semVer, '.')[2])
    else if Accepts(Helm, version) || Accepts(HelmBuild, version) then
      SplitInRange(version);
      var semVer := Split(version, '-')[4];
      (Split(semVer, '.')[0], Split(semVer, '.')[1] + "." + Split(semVer, '.')[2])
    else ("", "")
  }

  /** The parts between the dashes of a printed version. */
  function DashParts(format: Format, f: Fields): seq<string> {
    var numbers := Numbers(f.x, f.y, f.z);
    match format
    case Tag => ["v" + f.date, "v" + numbers]
    case Build => ["v" + f.date, "v" + numbers, f.a, f.b]
    case Helm => ["v" + f.date, "descheduler", "helm", "chart", numbers]
    case HelmBuild => ["v" + f.date, "descheduler", "helm", "chart", numbers, f.a, f.b]
  }

  lemma NoSeparators(s: string)
    requires IsWord(s) || Number(s)
    ensures '-' !in s && '.' !in s
  {
  }

  lemma DashesOf(format: Format, f: Fields)
    requires WellFormed(f)
    ensures Split(Print(format, f), '-') == DashParts(format, f)
  {
    var parts := DashParts(format, f);
    NoSeparators(f.date);
    NoSeparators(f.x);
    NoSeparators(f.y);
    NoSeparators(f.z);
    NoSeparators(f.a);
    NoSeparators(f.b);
    assert Without(parts, '-');
    JoinThenSplit(parts, '-');
    JoinedParts(format, f);
  }

  lemma JoinCons(first: string, rest: seq<string>, c: char)
    requires rest != []
    ensures Join([first] + rest, c) == first + [c] + Join(rest, c)
  {
    assert ([first] + rest)[1..] == rest;
  }

  lemma JoinedParts(format: Format, f: Fields)
    ensures Join(DashParts(format, f), '-') == Print(format, f)
  {
    hide Join;
    var numbers := Numbers(f.x, f.y, f.z);
    var tail: seq<string> := if format.Tag? || format.Helm? then [] else [f.a, f.b];
    if format.Tag? || format.Build? {
      JoinTail("v" + numbers, tail, f);
      JoinCons("v" + f.date, ["v" + numbers] + tail, '-');
      assert DashParts(format, f) == ["v" + f.date] + (["v" + numbers] + tail);
      assert Print(format, f) == "v" + f.date + ['-'] + ("v" + numbers + if tail == [] then "" else Suffix(f.a, f.b));
    } else {
      JoinTail(numbers, tail, f);
      JoinHelm("v" + f.date, [numbers] + tail);
      assert DashParts(format, f) == ["v" + f.date, "descheduler", "helm", "chart"] + ([numbers] + tail);
      assert Print(format, f) == "v" + f.date + HELM + (numbers + if tail == [] then "" else Suffix(f.a, f.b));
    }
  }

  lemma JoinHelm(first: string, rest: seq<string>)
    requires rest != []
    ensures Join([first, "descheduler", "helm", "chart"] + rest, '-') == first + HELM + Join(rest, '-')
  {
    hide Join;
    var chart := ["chart"] + rest;
    JoinCons("chart", rest, '-');
    var helm := ["helm"] + chart;
    JoinCons("helm", chart, '-');
    var descheduler := ["descheduler"] + helm;
    JoinCons("descheduler", helm, '-');
    JoinCons(first, descheduler, '-');
    assert [first, "descheduler", "helm", "chart"] + rest == [first] + descheduler;
    assert HELM == ['-'] + "descheduler" + ['-'] + "helm" + ['-'] + "chart" + ['-'];
  }

  lemma JoinTail(last: string, tail: seq<string>, f: Fields)
    requires tail == [] || tail == [f.a, f.b]
    ensures Join([last] + tail, '-') == last + if tail == [] then "" else Suffix(f.a, f.b)
  {
    assert Join([last], '-') == last && Join([f.b], '-') == f.b;
    hide Join;
    if tail == [] {
      assert [last] + tail == [last];
    } else {
      assert [f.a, f.b] == [f.a] + [f.b];
      JoinCons(f.a, [f.b], '-');
      JoinCons(last, [f.a, f.b], '-');
    }
  }

  lemma JoinNumbers(lead: string, f: Fields)
    ensures Join([lead + f.x, f.y, f.z], '.') == lead + Numbers(f.x, f.y, f.z)
  {
    assert Join([f.z], '.') == f.z;
    hide Join;
    JoinCons(f.y, [f.z], '.');
    JoinCons(lead + f.x, [f.y] + [f.z], '.');
    assert [lead + f.x, f.y, f.z] == [lead + f.x] + ([f.y] + [f.z]);
    assert lead + Numbers(f.x, f.y, f.z) == lead + f.x + ['.'] + (f.y + ['.'] + f.z);
  }

  /** The numbers behind an optional "v", split at the dots. */
  lemma DotsOf(lead: string, f: Fields)
    requires WellFormed(f) && '.' !in lead
    ensures Split(lead + Numbers(f.x, f.y, f.z), '.') == [lead + f.x, f.y, f.z]
  {
    NoSeparators(f.x);
    NoSeparators(f.y);
    NoSeparators(f.z);
    var parts := [lead + f.x, f.y, f.z];
    assert Without(parts, '.');
    hide Join, Split, Numbers;
    JoinNumbers(lead, f);
    JoinThenSplit(parts, '.');
  }

  lemma SplitInRange(version: string)
    ensures Accepts(Tag, version) || Accepts(Build, version) ==>
              |Split(version, '-')| > 1 && |Split(Split(version, '-')[1], '.')| == 3
    ensures Accepts(Helm, version) || Accepts(HelmBuild, version) ==>
              |Split(version, '-')| > 4 && |Split(Split(version, '-')[4], '.')| == 3
  {
    hide Accepts, Split;
    forall format: Format | Accepts(format, version)
      ensures |Split(version, '-')| == match format case Tag => 2 case Build => 4 case Helm => 5 case HelmBuild => 7
      ensures var at := if format.Tag? || format.Build? then 1 else 4;
              |Split(Split(version, '-')[at], '.')| == 3
    {
      var f := AcceptedIsPrinted(format, version);
      DashesOf(format, f);
      DotsOf(if format.Tag? || format.Build? then "v" else "", f);
      assert "" + Numbers(f.x, f.y, f.z) == Numbers(f.x, f.y, f.z);
    }
  }

  // ---------------------------------------------------------------- what splitting promises

  /** No string is accepted in two formats. */
  lemma FormatsAreDisjoint(format: Format, other: Format, version: string)
    requires Accepts(format, version) && Accepts(other, version)
    ensures format == other
  {
    hide Accepts, Split;
    var f := AcceptedIsPrinted(format, version);
    var g := AcceptedIsPrinted(other, version);
    DashesOf(format, f);
    DashesOf(other, g);
  }

  /** A format accepts exactly its printed forms. */
  lemma AcceptsExactlyPrinted(format: Format, version: string)
    ensures Accepts(format, version) <==> exists f :: WellFormed(f) && Print(format, f) == version
  {
    hide Accepts, Print, WellFormed;
    if Accepts(format, version) {
      var f := AcceptedIsPrinted(format, version);
    }
    if f :| WellFormed(f) && Print(format, f) == version {
      PrintedIsAccepted(format, f);
    }
  }

  lemma TrimV(x: string)
    requires Number(x)
    ensures Trim("v" + x, 'v') == x
  {
    assert '0' <= x[0] <= '9' && '0' <= x[|x| - 1] <= '9';
    assert ("v" + x)[1..] == x;
    assert TrimLeft(x, 'v') == x;
    assert TrimLeft("v" + x, 'v') == x;
    assert TrimRight(x, 'v') == x;
  }

  /** Every well-formed version of every format is split into its first number and the other two. */
  lemma PrintThenSplit(format: Format, f: Fields)
    requires WellFormed(f)
    ensures SplitVersion(Print(format, f)) == (f.x, f.y + "." + f.z)
  {
    hide Accepts, Split, Trim, Numbers, Join;
    var version := Print(format, f);
    PrintedIsAccepted(format, f);
    if Accepts(Tag, version) {
      FormatsAreDisjoint(format, Tag, version);
    }
    if Accepts(Build, version) {
      FormatsAreDisjoint(format, Build, version);
    }
    DashesOf(format, f);
    DotsOf("v", f);
    DotsOf("", f);
    assert "" + Numbers(f.x, f.y, f.z) == Numbers(f.x, f.y, f.z);
    assert "" + f.x == f.x;
    TrimV(f.x);
  }

  /** Any other string gives two empty results, and no accepted one does. */
  lemma OtherwiseEmpty(version: string)
    ensures SplitVersion(version) == ("", "") <==> forall format :: !Accepts(format, version)
  {
    hide Accepts, Split, Trim, Print, WellFormed;
    if format :| Accepts(format, version) {
      var f := AcceptedIsPrinted(format, version);
      PrintThenSplit(format, f);
      assert SplitVersion(version).1 != "";
    }
  }

  /** The four formats written out: the source's two comments and the two of the helm chart, for all fields. */
  lemma FourFormats(f: Fields)
    requires WellFormed(f)
    ensures var head, numbers := "v" + f.date, f.x + "." + f.y + "." + f.z;
            var suffix, result := "-" + f.a + "-" + f.b, (f.x, f.y + "." + f.z);
            && SplitVersion(head + "-v" + numbers) == result
            && SplitVersion(head + "-v" + (numbers + suffix)) == result
            && SplitVersion(head + "-descheduler-helm-chart-" + numbers) == result
            && SplitVersion(head + "-descheduler-helm-chart-" + (numbers + suffix)) == result
  {
    hide WellFormed, SplitVersion;
    forall format: Format {
      PrintThenSplit(format, f);
    }
    assert Print(Tag, f) == "v" + f.date + "-v" + (f.x + "." + f.y + "." + f.z);
    assert Print(Build, f) == "v" + f.date + "-v" + (f.x + "." + f.y + "." + f.z + ("-" + f.a + "-" + f.b));
    assert Print(Helm, f) == "v" + f.date + "-descheduler-helm-chart-" + (f.x + "." + f.y + "." + f.z);
    assert Print(HelmBuild, f)
        == "v" + f.date + "-descheduler-helm-chart-" + (f.x + "." + f.y + "." + f.z + ("-" + f.a + "-" + f.b));
  }

  /** Whatever is not of this form gives two empty results. */
  lemma NothingElse(version: string)
    requires SplitVersion(version) != ("", "")
    ensures exists f ::
              WellFormed(f) &&
              var head, numbers, suffix := "v" + f.date, f.x + "." + f.y + "." + f.z, "-" + f.a + "-" + f.b;
              || version == head + "-v" + numbers
              || version == head + "-v" + (numbers + suffix)
              || version == head + "-descheduler-helm-chart-" + numbers
              || version == head + "-descheduler-helm-chart-" + (numbers + suffix)
  {
    hide WellFormed, SplitVersion, Accepts;
    OtherwiseEmpty(version);
    var format :| Accepts(format, version);
    AcceptsExactlyPrinted(format, version);
    var f :| WellFormed(f) && Print(format, f) == version;
  }

  lemma TagExample()
    ensures "v20200521-v0.18.0" == "v" + "20200521" + "-v" + ("0" + "." + "18" + "." + "0")
  {
  }

  lemma BuildExample()
    ensures "v20201009-v0.18.0-46-g939c1c0"
         == "v" + "20201009" + "-v" + ("0" + "." + "18" + "." + "0" + ("-" + "46" + "-" + "g939c1c0"))
  {
  }

  lemma ExampleFields(date: string, a: string, b: string)
    requires date == "20200521" || date == "20201009"
    requires a == "46" && b == "g939c1c0"
    ensures WellFormed(Fields(date, "0", "18", "0", a, b))
  {
  }

  /** The source's own examples. */
  lemma DocumentedVersions()
    ensures SplitVersion("v20200521-v0.18.0") == ("0", "18.0")
    ensures SplitVersion("v20201009-v0.18.0-46-g939c1c0") == ("0", "18.0")
  {
    hide SplitVersion, WellFormed;
    ExampleFields("20200521", "46", "g939c1c0");
    ExampleFields("20201009", "46", "g939c1c0");
    FourFormats(Fields("20200521", "0", "18", "0", "46", "g939c1c0"));
    FourFormats(Fields("20201009", "0", "18", "0", "46", "g939c1c0"));
    TagExample();
    BuildExample();
    assert "18" + "." + "0" == "18.0";
  }
}
