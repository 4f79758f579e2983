/** How a note reaches the model. */
module NotificationText {
  import opened Text
  import opened JsonText

  // A note is wrapped in a tag as the JSON object `{"message": ...}`, every `<` of which is
  // written as its unicode escape.

  const OPEN_TAG := Units("<system_notification>")
  const CLOSE_TAG := Units("</system_notification>")
  const MESSAGE := Units("message")

  function EscapeAngles(text: JsString): JsString {
    if text == [] then []
    else (if text[0] == ANGLE then UnicodeEscape(ANGLE) else [text[0]]) + EscapeAngles(text[1..])
  }

  function Payload(message: JsString): Json {
    Obj([Member(MESSAGE, Str(message))])
  }

  function Render(message: JsString): JsString {
    OPEN_TAG + EscapeAngles(Print(Payload(message))) + CLOSE_TAG
  }

  // ----- nothing inside looks like a tag -----------------------------------------------------

  lemma EscapeHasNoAngle()
    ensures ANGLE !in UnicodeEscape(ANGLE)
  {
  }

  lemma {:induction false} NoAngleLeft(text: JsString)
    ensures ANGLE !in EscapeAngles(text)
  {
    EscapeHasNoAngle();
    if text != [] { NoAngleLeft(text[1..]); }
  }

  lemma NoAngleAfterFirst(tag: string)
    requires tag != "" && forall i :: 0 <= i < |tag| ==> (tag[i] as int) < 0x1_0000
    requires forall i :: 1 <= i < |tag| ==> tag[i] != '<'
    ensures ANGLE !in Units(tag)[1..]
  {
    forall i | 0 <= i < |tag| - 1 ensures Units(tag)[1..][i] != ANGLE { assert tag[i + 1] != '<'; }
  }

  lemma TagsHaveOneAngle()
    ensures OPEN_TAG[0] == ANGLE && ANGLE !in OPEN_TAG[1..]
    ensures CLOSE_TAG[0] == ANGLE && ANGLE !in CLOSE_TAG[1..]
  {
    NoAngleAfterFirst("<system_notification>");
    NoAngleAfterFirst("</system_notification>");
  }

  /** Whatever the note says, its rendering holds exactly two `<`: where the opening tag
      begins and where the closing tag begins. */
  lemma TagsCannotBeSpoofed(message: JsString, i: nat)
    requires i < |Render(message)|
    ensures Render(message)[i] == ANGLE <==> i == 0 || i == |Render(message)| - |CLOSE_TAG|
  {
    var body := EscapeAngles(Print(Payload(message)));
    NoAngleLeft(Print(Payload(message)));
    TagsHaveOneAngle();
    var r := Render(message);
    if 0 < i < |OPEN_TAG| {
      assert r[i] == OPEN_TAG[1..][i - 1];
    } else if |OPEN_TAG| <= i < |OPEN_TAG| + |body| {
      assert r[i] == body[i - |OPEN_TAG|];
    } else if i > |OPEN_TAG| + |body| {
      assert r[i] == CLOSE_TAG[1..][i - |OPEN_TAG| - |body| - 1];
    }
  }

  // ----- the note can be read back -------------------------------------------------------------

  lemma {:induction false} EscapeAppends(a: JsString, b: JsString)
    ensures EscapeAngles(a + b) == EscapeAngles(a) + EscapeAngles(b)
  {
    if a == [] {
      assert a + b == b;
    } else {
      assert (a + b)[1..] == a[1..] + b;
      EscapeAppends(a[1..], b);
    }
  }

  lemma {:induction false} NothingToEscape(text: JsString)
    requires ANGLE !in text
    ensures EscapeAngles(text) == text
  {
    if text != [] {
      NothingToEscape(text[1..]);
      assert text == [text[0]] + text[1..];
    }
  }

  lemma EscapedUnit(u: Unit)
    ensures EscapeAngles(EscapeUnit(u, false)) == EscapeUnit(u, true)
  {
    if u == ANGLE {
      assert EscapeUnit(u, false) == [u];
      assert EscapeAngles([u]) == UnicodeEscape(ANGLE) + EscapeAngles([]);
    } else {
      NothingToEscape(EscapeUnit(u, false));
    }
  }

  /** Escaping a printed string is printing it with `<` escaped. */
  lemma {:induction false} EscapedBody(s: JsString)
    ensures EscapeAngles(QuoteBody(s, false)) == QuoteBody(s, true)
    decreases |s|
  {
    if s != [] {
      if StartsPair(s) {
        EscapeAppends([s[0], s[1]], QuoteBody(s[2..], false));
        NothingToEscape([s[0], s[1]]);
        EscapedBody(s[2..]);
      } else {
        EscapeAppends(EscapeUnit(s[0], false), QuoteBody(s[1..], false));
        EscapedUnit(s[0]);
        EscapedBody(s[1..]);
      }
    }
  }

  function Before(): JsString {
    [OPEN_BRACE] + Quote(MESSAGE) + [COLON, QUOTE]
  }

  lemma Regroup(a: JsString, b: JsString, c: JsString, d: JsString, e: JsString)
    ensures a + (b + c + d) + e == (a + b) + (c + (d + e))
    ensures a + (b + (c + d)) + e == a + b + c + (d + e)
  {
  }

  lemma PayloadPrints(message: JsString)
    ensures Print(Payload(message)) == Before() + QuoteBody(message, false) + [QUOTE, CLOSE_BRACE]
  {
    var m := Member(MESSAGE, Str(message));
    assert PrintMembers([m]) == PrintMember(m);
    var key, body := Quote(MESSAGE), QuoteBody(message, false);
    hide QuoteBody;
    hide Quote;
    assert Quote(m.key) == key && Print(m.value) == [QUOTE] + body + [QUOTE] by { QuoteIs(message); }
    assert [COLON] + ([QUOTE] + body + [QUOTE]) == [COLON, QUOTE] + (body + [QUOTE]);
    Regroup([OPEN_BRACE], key, [COLON, QUOTE], body + [QUOTE], [CLOSE_BRACE]);
    assert body + [QUOTE] + [CLOSE_BRACE] == body + [QUOTE, CLOSE_BRACE];
    assert Before() + (body + [QUOTE, CLOSE_BRACE]) == Before() + body + [QUOTE, CLOSE_BRACE];
  }

  lemma QuoteIs(message: JsString)
    ensures Quote(message) == [QUOTE] + QuoteBody(message, false) + [QUOTE]
  {
  }

  lemma PlainAround()
    ensures ANGLE !in Before() && ANGLE !in [QUOTE, CLOSE_BRACE]
  {
    assert forall i :: 0 <= i < |"message"| ==> "message"[i] != '<';
    NoEscapes(MESSAGE);
  }

  /** A text of plain letters prints as itself. */
  lemma {:induction false} NoEscapes(s: JsString)
    requires forall i :: 0 <= i < |s| ==> 0x61 <= s[i] <= 0x7A
    ensures QuoteBody(s, false) == s
  {
    if s != [] {
      NoEscapes(s[1..]);
      assert s == [s[0]] + s[1..];
    }
  }

  lemma RenderedBody(message: JsString)
    ensures EscapeAngles(Print(Payload(message))) == Before() + QuoteBody(message, true) + [QUOTE, CLOSE_BRACE]
  {
    PayloadPrints(message);
    PlainAround();
    EscapeAppends(Before() + QuoteBody(message, false), [QUOTE, CLOSE_BRACE]);
    EscapeAppends(Before(), QuoteBody(message, false));
    NothingToEscape(Before());
    NothingToEscape([QUOTE, CLOSE_BRACE]);
    EscapedBody(message);
  }

  lemma RenderParts(message: JsString)
    requires EscapeAngles(Print(Payload(message))) == Before() + QuoteBody(message, true) + [QUOTE, CLOSE_BRACE]
    ensures Render(message)[|OPEN_TAG|..] ==
            [OPEN_BRACE] +
            (Quote(MESSAGE) +
             ([COLON] + ([QUOTE] + (QuoteBody(message, true) + ([QUOTE] + ([CLOSE_BRACE] + CLOSE_TAG))))))
  {
    var q, key := QuoteBody(message, true), Quote(MESSAGE);
    hide QuoteBody;
    hide Quote;
    var text := EscapeAngles(Print(Payload(message)));
    hide EscapeAngles;
    assert Render(message)[|OPEN_TAG|..] == text + CLOSE_TAG;
    assert text + CLOSE_TAG == [OPEN_BRACE] + key + [COLON, QUOTE] + q + [QUOTE, CLOSE_BRACE] + CLOSE_TAG;
  }

  /** Read as JSON, what stands between the tags is the object that carries the message,
      whatever the message is: the escaped `<` come back. */
  lemma RenderReadsBack(message: JsString)
    ensures ReadValue(Render(message)[|OPEN_TAG|..]) == Got(Payload(message), CLOSE_TAG)
  {
    RenderedBody(message);
    RenderParts(message);
    var after := [CLOSE_BRACE] + CLOSE_TAG;
    var text := [QUOTE] + (QuoteBody(message, true) + ([QUOTE] + after));
    assert ReadValue(text) == Got(Str(message), after) by {
      BodyReads(message, true, after);
      assert text[1..] == QuoteBody(message, true) + ([QUOTE] + after);
      hide QuoteBody;
      hide ReadBody;
    }
    KeyReads(MESSAGE, text, Str(message), after);
    var member := Quote(MESSAGE) + ([COLON] + text);
    assert member[0] == QUOTE;
    OneMemberReads(member, Member(MESSAGE, Str(message)), CLOSE_TAG);
    hide ReadValue;
    hide ReadMember;
    hide QuoteBody;
    hide EscapeAngles;
  }

  /** A rendering determines the note. */
  lemma RenderInjective(a: JsString, b: JsString)
    ensures Render(a) == Render(b) <==> a == b
  {
    RenderReadsBack(a);
    RenderReadsBack(b);
    hide Render;
    hide ReadValue;
  }
}
