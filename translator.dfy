/**
 * The event translator: what a stream pump writes for one event received on the
 * subscription behind channel `chName` (feed `streamName`).
 */
module Translator {
  import opened Wrappers
  import opened GoStrings
  import opened Irc

  /**
   * A post. `plain` is the post's HTML content after conversion to plain text, or
   * `None` when the converter failed.
   */
  datatype Status = Status(username: string, spoilerText: string, plain: Option<string>)

  /**
   * A backend event: `update` carries a post; every other kind (`notification`,
   * `delete`, ...) is only named, and that name is never `update`.
   */
  datatype StreamEvent = Update(status: Status) | Other(event: string)

  function TrimAll(ls: seq<string>): (r: seq<string>)
    ensures |r| == |ls|
    ensures forall i :: 0 <= i < |ls| ==> r[i] == TrimRight(ls[i])
  {
    seq(|ls|, i requires 0 <= i < |ls| => TrimRight(ls[i]))
  }

  /** The lines up to, and not including, the first empty one. */
  function TakeNonEmpty(ls: seq<string>): (r: seq<string>)
    ensures r <= ls
    ensures forall i :: 0 <= i < |r| ==> r[i] != []
    ensures |r| < |ls| ==> ls[|r|] == []
    decreases |ls|
  {
    if ls == [] || ls[0] == [] then [] else [ls[0]] + TakeNonEmpty(ls[1..])
  }

  /** The body lines written for a post whose plain text is `text`. */
  function BodyLines(text: string): (r: seq<string>)
    ensures |r| <= |Split(text, '\n')|
    ensures forall i :: 0 <= i < |r| ==> r[i] == TrimRight(Split(text, '\n')[i]) && r[i] != [] && '\n' !in r[i]
    ensures |r| < |Split(text, '\n')| ==> TrimRight(Split(text, '\n')[|r|]) == []
  {
    var ls := Split(text, '\n');
    var r := TakeNonEmpty(TrimAll(ls));
    assert forall i :: 0 <= i < |r| ==> r[i] == TrimAll(ls)[i];
    r
  }

  function Say(streamName: string, chName: string, author: string, texts: seq<string>): (r: seq<Reply>)
    ensures |r| == |texts|
    ensures forall i :: 0 <= i < |r| ==> r[i] == Privmsg(streamName, chName, author, texts[i])
  {
    seq(|texts|, i requires 0 <= i < |texts| => Privmsg(streamName, chName, author, texts[i]))
  }

  /** The lines a pump writes for one event. */
  function Translate(ev: StreamEvent, streamName: string, chName: string): (lines: seq<Reply>)
    ensures !ev.Update? || ev.status.plain.None? ==> lines == []
    ensures forall i :: 0 <= i < |lines| ==>
              lines[i].Privmsg? && lines[i].source == streamName && lines[i].channel == chName
              && lines[i].author == ev.status.username
    ensures ev.Update? && ev.status.plain.Some? ==>
              var cw := if ev.status.spoilerText != [] then 1 else 0;
              && |lines| == cw + |BodyLines(ev.status.plain.value)|
              && (cw == 1 ==> lines[0].text == "CW: " + ev.status.spoilerText)
              && forall i :: cw <= i < |lines| ==> lines[i].text == BodyLines(ev.status.plain.value)[i - cw]
  {
    match ev
    case Other(_) => []
    case Update(st) =>
      match st.plain
      case None => []
      case Some(text) =>
        var cw := if st.spoilerText != [] then ["CW: " + st.spoilerText] else [];
        Say(streamName, chName, st.username, cw + BodyLines(text))
  }

  /** Nothing after the first line that is blank once trailing spaces are trimmed is ever written. */
  lemma {:induction false} BlankLineCutsOff(shown: seq<string>, hidden: seq<string>)
    requires forall i :: 0 <= i < |shown| ==> '\n' !in shown[i] && TrimRight(shown[i]) != []
    requires forall i :: 0 <= i < |hidden| ==> '\n' !in hidden[i]
    ensures BodyLines(Join(shown + [[]] + hidden, '\n')) == TrimAll(shown)
  {
    var parts := shown + [[]] + hidden;
    assert forall i :: 0 <= i < |parts| ==> '\n' !in parts[i];
    SplitJoin(parts, '\n');
    assert TrimRight(parts[|shown|]) == [];
  }

  /** The example text, cut at its line breaks. */
  lemma ExampleTextPieces()
    ensures "line one\nline two\n\n(hidden line)" == "line one" + ("\n" + ("line two" + ("\n" + ("" + ("\n" + "(hidden line)")))))
  {
  }

  lemma ExampleText()
    ensures Join(["line one", "line two", "", "(hidden line)"], '\n') == "line one\nline two\n\n(hidden line)"
  {
    var parts := ["line one", "line two", "", "(hidden line)"];
    assert parts[1..] == ["line two", "", "(hidden line)"];
    assert parts[1..][1..] == ["", "(hidden line)"];
    assert parts[1..][1..][1..] == ["(hidden line)"];
    ExampleTextPieces();
  }

  /** Body splitting on "line one\nline two\n\n(hidden line)" keeps exactly the first two lines. */
  lemma HiddenLineExample()
    ensures BodyLines("line one\nline two\n\n(hidden line)") == ["line one", "line two"]
  {
    var shown := ["line one", "line two"];
    assert TrimRight("line one") == "line one";
    assert TrimRight("line two") == "line two";
    BlankLineCutsOff(shown, ["(hidden line)"]);
    assert shown + [[]] + ["(hidden line)"] == ["line one", "line two", "", "(hidden line)"];
    assert TrimAll(shown) == shown;
    ExampleText();
  }

  /** A content warning is written strictly before every body line of the same post. */
  lemma ContentWarningFirst(st: Status, text: string, streamName: string, chName: string)
    requires st.plain == Some(text) && st.spoilerText != []
    ensures var lines := Translate(Update(st), streamName, chName);
      && |lines| == 1 + |BodyLines(text)|
      && lines[0] == Privmsg(streamName, chName, st.username, "CW: " + st.spoilerText)
  {
  }

  /** An empty body, or one whose first line is only spaces, writes no body line. */
  lemma {:induction false} BlankFirstLineWritesNothing(st: Status, text: string, streamName: string, chName: string)
    requires st.plain == Some(text) && st.spoilerText == []
    requires TrimRight(Split(text, '\n')[0]) == []
    ensures Translate(Update(st), streamName, chName) == []
  {
  }

  /** Two lists of texts without `'\n'`, one after the other, hold none either. */
  lemma TextsHoldNoBreak(front: seq<string>, back: seq<string>)
    requires forall j :: 0 <= j < |front| ==> '\n' !in front[j]
    requires forall j :: 0 <= j < |back| ==> '\n' !in back[j]
    ensures forall j :: 0 <= j < |front + back| ==> '\n' !in (front + back)[j]
  {
    forall j | 0 <= j < |front + back|
      ensures '\n' !in (front + back)[j]
    {
      if j >= |front| {
        assert (front + back)[j] == back[j - |front|];
      }
    }
  }

  /** Lines said with texts that hold no `'\n'` render without one. */
  lemma SaidLinesStayLines(streamName: string, chName: string, author: string, texts: seq<string>)
    requires '\n' !in streamName && '\n' !in chName && '\n' !in author
    requires forall j :: 0 <= j < |texts| ==> '\n' !in texts[j]
    ensures forall i :: 0 <= i < |texts| ==> '\n' !in Render(Say(streamName, chName, author, texts)[i])
  {
    var lines := Say(streamName, chName, author, texts);
    forall i | 0 <= i < |texts|
      ensures '\n' !in Render(lines[i])
    {
      assert LineBreakFree(lines[i]);
      RenderOneLine(lines[i]);
    }
  }

  /**
   * The body is cut at its `'\n'`s, so no line written for a post renders with a `'\n'`
   * when the names and the content warning hold none. A carriage return in the post's
   * text is not cut: it stays in its body line and is written through.
   */
  lemma TranslatedLinesStayLines(ev: StreamEvent, streamName: string, chName: string)
    requires '\n' !in streamName && '\n' !in chName
    requires ev.Update? ==> '\n' !in ev.status.username && '\n' !in ev.status.spoilerText
    ensures forall i :: 0 <= i < |Translate(ev, streamName, chName)| ==> '\n' !in Render(Translate(ev, streamName, chName)[i])
  {
    if ev.Update? && ev.status.plain.Some? {
      var st := ev.status;
      var warning := "CW: " + st.spoilerText;
      assert '\n' !in warning by {
        assert '\n' !in "CW: ";
      }
      var cw := if st.spoilerText != [] then [warning] else [];
      TextsHoldNoBreak(cw, BodyLines(st.plain.value));
      SaidLinesStayLines(streamName, chName, st.username, cw + BodyLines(st.plain.value));
    }
  }

  /** Everything the pump of one channel writes for the events it has received so far, in order. */
  function PumpLines(events: seq<StreamEvent>, streamName: string, chName: string): (lines: seq<Reply>)
    ensures forall i :: 0 <= i < |lines| ==>
              lines[i].Privmsg? && lines[i].source == streamName && lines[i].channel == chName
    decreases |events|
  {
    if events == [] then []
    else PumpLines(events[..|events| - 1], streamName, chName) + Translate(events[|events| - 1], streamName, chName)
  }

  /**
   * The pump's loop, with the events it receives before the session is cancelled or the
   * backend stops: each event is translated and its lines written before the next one.
   */
  method Pump(events: seq<StreamEvent>, streamName: string, chName: string) returns (written: seq<Reply>)
    ensures written == PumpLines(events, streamName, chName)
  {
    written := [];
    for i := 0 to |events|
      invariant written == PumpLines(events[..i], streamName, chName)
    {
      assert events[..i + 1][..i] == events[..i];
      written := written + Translate(events[i], streamName, chName);
    }
    assert events[..|events|] == events;
  }

  /** Unfolds the pump's lines for a sequence of events ending in `b`'s last event. */
  lemma PumpLinesSnoc(a: seq<StreamEvent>, b: seq<StreamEvent>, streamName: string, chName: string)
    requires b != []
    ensures PumpLines(a + b, streamName, chName)
            == PumpLines(a + b[..|b| - 1], streamName, chName) + Translate(b[|b| - 1], streamName, chName)
  {
    assert (a + b)[..|a + b| - 1] == a + b[..|b| - 1];
    assert (a + b)[|a + b| - 1] == b[|b| - 1];
  }

  lemma AppendAssoc(x: seq<Reply>, y: seq<Reply>, t: seq<Reply>)
    ensures (x + y) + t == x + (y + t)
  {
  }

  /** Within one channel, the lines of earlier events come before those of later ones. */
  lemma {:induction false} PumpInOrder(a: seq<StreamEvent>, b: seq<StreamEvent>, streamName: string, chName: string)
    ensures PumpLines(a + b, streamName, chName) == PumpLines(a, streamName, chName) + PumpLines(b, streamName, chName)
    decreases |b|
  {
    if b == [] {
      assert a + b == a;
    } else {
      var b' := b[..|b| - 1];
      PumpInOrder(a, b', streamName, chName);
      PumpLinesSnoc(a, b, streamName, chName);
      AppendAssoc(PumpLines(a, streamName, chName), PumpLines(b', streamName, chName),
                  Translate(b[|b| - 1], streamName, chName));
    }
  }
}
