/** How the report reads the stop reason that the simulator has written. */
module StopReason {
  import opened Options
  import opened Cluster
  import opened Simulator
  import opened Text
  import Decimal

  datatype FailReason = FailReason(failType: string, failMessage: string)

  /** Takes the first line apart at its first colon; without a colon the slice is out of range and
      the program panics, here None. */
  function MainFailReason(message: string): Option<FailReason> {
    var line := Split(message, '\n')[0];
    var colon := Index(line, ':');
    if colon < 0 then None
    else Some(FailReason(line[..colon], Trim(line[colon + 1..], ' ')))
  }

  lemma PartsOfReason(failType: string, rest: string)
    requires ':' !in failType && '\n' !in failType
    ensures MainFailReason(failType + ":" + rest)
         == Some(FailReason(failType, Trim(Split(rest, '\n')[0], ' ')))
  {
    var tail := Split(rest, '\n')[0];
    FirstPartAfter(failType + ":", rest, '\n');
    var line := failType + ":" + tail;
    IndexAfter(failType, ':', tail);
    assert line[..|failType|] == failType && line[|failType| + 1..] == tail;
  }

  lemma {:induction false} TrimLeadingSpace(s: string)
    ensures Trim(" " + s, ' ') == Trim(s, ' ')
  {
    assert (" " + s)[1..] == s;
  }

  lemma TrimKeeps(s: string, c: char)
    requires s != [] && s[0] != c && s[|s| - 1] != c
    ensures Trim(s, c) == s
  {
  }

  /** A type and a text on one line are read back as they were printed. */
  lemma OneLineRoundTrip(failType: string, text: string)
    requires ':' !in failType && '\n' !in failType && '\n' !in text
    requires text != [] && text[0] != ' ' && text[|text| - 1] != ' '
    ensures MainFailReason(failType + ": " + text) == Some(FailReason(failType, text))
  {
    assert failType + ": " + text == failType + ":" + (" " + text);
    PartsOfReason(failType, " " + text);
    FirstPart(" " + text, '\n', "");
    TrimLeadingSpace(text);
    TrimKeeps(text, ' ');
  }

  lemma LimitIsRead(numeral: string)
    requires Decimal.IsNumeral(numeral)
    ensures MainFailReason("LimitReached: Maximum number of pods simulated: " + numeral)
         == Some(FailReason("LimitReached", "Maximum number of pods simulated: " + numeral))
  {
    hide MainFailReason;
    var text := "Maximum number of pods simulated: " + numeral;
    LimitText(numeral);
    PlainText("Maximum number of pods simulated: ", numeral);
    OneLineRoundTrip("LimitReached", text);
  }

  lemma LimitText(numeral: string)
    ensures "LimitReached" + ": " + ("Maximum number of pods simulated: " + numeral)
         == "LimitReached: Maximum number of pods simulated: " + numeral
  {
  }

  lemma PlainText(text: string, numeral: string)
    requires Decimal.IsNumeral(numeral) && '\n' !in text && text != [] && text[0] != ' '
    ensures var all := text + numeral;
            all != [] && '\n' !in all && all[0] != ' ' && all[|all| - 1] != ' '
  {
    assert (text + numeral)[|text + numeral| - 1] == numeral[|numeral| - 1];
  }

  /** The reason for a reached limit is read back as its type and its message. */
  lemma LimitRoundTrip(cfg: Config, numeral: string)
    requires cfg.maxSimulated > 0 && Decimal.IsNumeral(numeral) && Decimal.Read(numeral) == cfg.maxSimulated
    ensures LimitReason(cfg) == "LimitReached: Maximum number of pods simulated: " + numeral
    ensures MainFailReason(LimitReason(cfg))
         == Some(FailReason("LimitReached", "Maximum number of pods simulated: " + numeral))
  {
    hide Decimal.Print, MainFailReason;
    Decimal.PrintIsTheNumeral(cfg.maxSimulated, numeral);
    LimitIsRead(numeral);
  }

  lemma RefusalText(message: string)
    ensures RefusalReason(Refusal(message)) == "Unschedulable: " + message
    ensures "Unschedulable: " + message == "Unschedulable" + ":" + (" " + message)
  {
  }

  /** The reason for a refusal is read back as "Unschedulable" and the trimmed first line of the
      scheduler's message, whatever colons and newlines the message contains. */
  lemma RefusalRoundTrip(message: string)
    ensures RefusalReason(Refusal(message)) == "Unschedulable: " + message
    ensures MainFailReason("Unschedulable: " + message)
         == Some(FailReason("Unschedulable", Trim(Split(message, '\n')[0], ' ')))
  {
    FirstPartAfter(" ", message, '\n');
    hide Trim, Split, MainFailReason, RefusalReason;
    RefusalText(message);
    PartsOfReason("Unschedulable", " " + message);
    TrimLeadingSpace(Split(message, '\n')[0]);
  }

  /** Reading a reason fails exactly when its first line has no colon; the type that is read is what
      stands before the first colon of the reason. */
  lemma ReadableExactly(message: string)
    ensures MainFailReason(message).Some? <==> ':' in Split(message, '\n')[0]
    ensures MainFailReason(message).Some? ==>
              var fail := MainFailReason(message).value;
              && ':' !in fail.failType && '\n' !in fail.failType && fail.failType + ":" <= message
  {
    var line := Split(message, '\n')[0];
    FirstLine(message);
    hide Split, Trim;
    if MainFailReason(message).Some? {
      var colon := Index(line, ':');
      assert line[..colon] + ":" == line[..colon + 1];
      assert line[..colon + 1] <= message[..|line|] <= message;
    }
  }

  lemma AfterColon(line: string, colon: nat, rest: string)
    requires colon < |line| && line[..colon] + ":" + rest == line
    ensures line[colon + 1..] == rest
  {
  }

  /** The message that is read is the trimmed rest of the first line. */
  lemma MessageIsTheRest(message: string, rest: string)
    requires MainFailReason(message).Some?
    requires MainFailReason(message).value.failType + ":" + rest == Split(message, '\n')[0]
    ensures MainFailReason(message).value.failMessage == Trim(rest, ' ')
  {
    hide Split, Trim, Index;
    var line := Split(message, '\n')[0];
    var colon := Index(line, ':');
    assert MainFailReason(message) == Some(FailReason(line[..colon], Trim(line[colon + 1..], ' ')));
    hide MainFailReason;
    AfterColon(line, colon, rest);
  }

  lemma FirstLine(message: string)
    ensures var line := Split(message, '\n')[0];
            '\n' !in line && line <= message
  {
    SplitThenJoin(message, '\n');
    hide Split;
  }

  /** A simulation that has not stopped yet has the empty reason, which cannot be read. */
  lemma EmptyReason()
    ensures MainFailReason("").None?
  {
    ReadableExactly("");
  }
}
