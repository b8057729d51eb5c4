/** A model of Go's `fmt.Sprintf(format, arg)` with exactly one string argument, for formats
    whose only verbs are `%s` and the literal `%%`. What Go does there:
    the first `%s` is replaced by the argument, every later `%s` prints `%!s(MISSING)`,
    `%%` prints `%`, and an argument no verb used is reported after the text as
    `%!(EXTRA string=<arg>)`. */
module Fmt {
  import opened GoStrings

  /** Every `%` of the format starts a `%s` or a `%%`. */
  predicate SimpleFormat(format: string)
    decreases |format|
  {
    if format == [] then true
    else if format[0] == '%' then
      |format| >= 2 && (format[1] == 's' || format[1] == '%') && SimpleFormat(format[2..])
    else SimpleFormat(format[1..])
  }

  /** The report of an argument no verb used: `%!(EXTRA string=<arg>)`. */
  function Extra(arg: string): string {
    "%!" + ("(EXTRA string=" + arg + ")")
  }

  /** `fmt.Sprintf(format, arg)`. */
  function Sprintf(format: string, arg: string): string
    requires SimpleFormat(format)
  {
    Render(format, arg, false)
  }

  /** The rest of the format rendered, `used` telling whether the argument was consumed. */
  function Render(format: string, arg: string, used: bool): string
    requires SimpleFormat(format)
    decreases |format|
  {
    if format == [] then (if used then "" else Extra(arg))
    else if format[0] == '%' then
      if format[1] == '%' then "%" + Render(format[2..], arg, used)
      else (if used then "%!s(MISSING)" else arg) + Render(format[2..], arg, true)
    else [format[0]] + Render(format[1..], arg, used)
  }

  /** Text without `%` is a simple format. */
  lemma {:induction false} PlainIsSimple(text: string)
    requires '%' !in text
    ensures SimpleFormat(text)
  {
    if text != [] {
      assert text[0] in text;
      PlainIsSimple(text[1..]);
    }
  }

  /** Text without `%` followed by a simple format is a simple format. */
  lemma {:induction false} PlainPrefixIsSimple(text: string, format: string)
    requires '%' !in text && SimpleFormat(format)
    ensures SimpleFormat(text + format)
  {
    if text != [] {
      assert text[0] in text;
      assert (text + format)[1..] == text[1..] + format;
      PlainPrefixIsSimple(text[1..], format);
    } else {
      assert text + format == format;
    }
  }

  /** A character other than `%` is copied through unchanged. */
  lemma RenderPlainChar(c: char, format: string, arg: string, used: bool)
    requires c != '%' && SimpleFormat(format)
    ensures SimpleFormat([c] + format)
    ensures Render([c] + format, arg, used) == [c] + Render(format, arg, used)
  {
    assert ([c] + format)[1..] == format;
  }

  /** Text without `%` is copied through unchanged. */
  lemma {:induction false} RenderPlainPrefix(text: string, format: string, arg: string, used: bool)
    requires '%' !in text && SimpleFormat(format)
    ensures SimpleFormat(text + format)
    ensures Render(text + format, arg, used) == text + Render(format, arg, used)
    decreases |text|
  {
    if text == [] {
      assert text + format == format;
    } else {
      var c, rest := text[0], text[1..];
      assert text == [c] + rest;
      assert c != '%' && '%' !in rest;
      RenderPlainPrefix(rest, format, arg, used);
      RenderPlainChar(c, rest + format, arg, used);
      assert text + format == [c] + (rest + format);
    }
  }

  /** A format without any verb prints itself and then reports the unused argument. */
  lemma FormatWithoutVerb(format: string, arg: string)
    requires '%' !in format
    ensures SimpleFormat(format)
    ensures Sprintf(format, arg) == format + Extra(arg)
  {
    RenderPlainPrefix(format, [], arg, false);
    assert format + [] == format;
  }

  /** A format with exactly one `%s` and no other `%` substitutes the argument in place. */
  lemma FormatOneSlot(before: string, after: string, arg: string)
    requires '%' !in before && '%' !in after
    ensures SimpleFormat(before + "%s" + after)
    ensures Sprintf(before + "%s" + after, arg) == before + arg + after
  {
    PlainIsSimple(after);
    RenderPlainPrefix(after, [], arg, true);
    assert after + [] == after;
    var slot := ['%', 's'] + after;
    assert slot[0] == '%' && slot[1] == 's' && slot[2..] == after;
    assert SimpleFormat(slot);
    assert Render(slot, arg, false) == arg + Render(after, arg, true);
    RenderPlainPrefix(before, slot, arg, false);
    assert before + "%s" + after == before + slot;
  }
}
