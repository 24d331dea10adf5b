/** The JSON text Python's `json.dumps` writes for the flat objects the
    API builds by hand: `ensure_ascii` escaping of strings and the default
    `", "` and `": "` separators. Everything it writes is printable ASCII,
    which is what lets a JSON text sit on one line of an event stream. */
module JsonText {
  import opened Util

  predicate PrintableChar(c: char) {
    ' ' <= c <= '~'
  }

  predicate Printable(s: string) {
    forall i :: 0 <= i < |s| ==> PrintableChar(s[i])
  }

  lemma PrintableConcat(a: string, b: string)
    requires Printable(a) && Printable(b)
    ensures Printable(a + b)
  {
    forall i | 0 <= i < |a + b|
      ensures PrintableChar((a + b)[i])
    {
      if i >= |a| {
        assert (a + b)[i] == b[i - |a|];
      }
    }
  }

  function HexDigit(n: nat): (c: char)
    requires n < 16
    ensures PrintableChar(c)
  {
    "0123456789abcdef"[n]
  }

  /** Four lower-case hexadecimal digits, as `'\\u{0:04x}'` formats them. */
  function Hex4(n: nat): (h: string)
    requires n < 0x1_0000
    ensures |h| == 4 && Printable(h)
  {
    [HexDigit(n / 0x1000), HexDigit(n / 0x100 % 0x10), HexDigit(n / 0x10 % 0x10), HexDigit(n % 0x10)]
  }

  /** The escape of one character: the short escapes for the quote, the
      backslash and five control characters, the character itself when
      it is printable ASCII, and `\uXXXX` otherwise, as a UTF-16
      surrogate pair above U+FFFF. */
  function EscapeChar(c: char): (e: string)
    ensures Printable(e) && |e| >= 1
    ensures PrintableChar(c) && c != '"' && c != '\\' ==> e == [c]
  {
    if c == '"' then "\\\""
    else if c == '\\' then "\\\\"
    else if c == '\n' then "\\n"
    else if c == '\r' then "\\r"
    else if c == '\t' then "\\t"
    else if c == '\U{0008}' then "\\b"
    else if c == '\U{000C}' then "\\f"
    else if PrintableChar(c) then [c]
    else if c as int < 0x1_0000 then "\\u" + Hex4(c as int)
    else
      var v := c as int - 0x1_0000;
      "\\u" + Hex4(0xD800 + v / 0x400) + "\\u" + Hex4(0xDC00 + v % 0x400)
  }

  function EscapeAll(s: string): (e: string)
    ensures Printable(e)
    decreases |s|
  {
    if |s| == 0 then ""
    else
      PrintableConcat(EscapeChar(s[0]), EscapeAll(s[1..]));
      EscapeChar(s[0]) + EscapeAll(s[1..])
  }

  /** `json.dumps(s)` for a string. */
  function JsonString(s: string): (j: string)
    ensures Printable(j) && |j| >= 2 && j[0] == '"' && j[|j| - 1] == '"'
  {
    PrintableConcat("\"", EscapeAll(s));
    PrintableConcat("\"" + EscapeAll(s), "\"");
    "\"" + EscapeAll(s) + "\""
  }

  /** Text that needs no escaping. */
  predicate Plain(s: string) {
    forall i :: 0 <= i < |s| ==> PrintableChar(s[i]) && s[i] != '"' && s[i] != '\\'
  }

  lemma {:induction false} EscapePlain(s: string)
    requires Plain(s)
    ensures EscapeAll(s) == s
    decreases |s|
  {
    if |s| > 0 {
      EscapePlain(s[1..]);
      assert s == [s[0]] + s[1..];
    }
  }

  /** A plain string, such as a generated identifier, is written between
      quotes as it is. */
  lemma PlainStringVerbatim(s: string)
    requires Plain(s)
    ensures JsonString(s) == "\"" + s + "\""
  {
    EscapePlain(s);
  }

  /** A member value: a string, or JSON text produced elsewhere. */
  datatype Value = Str(s: string) | Raw(text: string)

  function ValueText(v: Value): string {
    match v
    case Str(s) => JsonString(s)
    case Raw(t) => t
  }

  function Member(key: string, v: Value): string {
    JsonString(key) + ": " + ValueText(v)
  }

  function Members(ms: seq<(string, Value)>): (texts: seq<string>)
    ensures |texts| == |ms|
    ensures forall i :: 0 <= i < |ms| ==> texts[i] == Member(ms[i].0, ms[i].1)
  {
    seq(|ms|, i requires 0 <= i < |ms| => Member(ms[i].0, ms[i].1))
  }

  predicate RawPrintable(ms: seq<(string, Value)>) {
    forall i :: 0 <= i < |ms| ==> (ms[i].1.Raw? ==> Printable(ms[i].1.text))
  }

  /** `json.dumps(d)` for a dictionary with the members in order. */
  function JsonObject(ms: seq<(string, Value)>): string {
    "{" + Join(Members(ms), ", ") + "}"
  }

  lemma {:induction false} JoinPrintable(parts: seq<string>, sep: string)
    requires Printable(sep) && forall i :: 0 <= i < |parts| ==> Printable(parts[i])
    ensures Printable(Join(parts, sep))
    decreases |parts|
  {
    if |parts| > 1 {
      JoinPrintable(parts[1..], sep);
      PrintableConcat(parts[0], sep);
      PrintableConcat(parts[0] + sep, Join(parts[1..], sep));
    }
  }

  /** An object whose embedded texts are printable is printable, so it fits
      on one line. */
  lemma ObjectPrintable(ms: seq<(string, Value)>)
    requires RawPrintable(ms)
    ensures Printable(JsonObject(ms))
  {
    var texts := Members(ms);
    forall i | 0 <= i < |texts|
      ensures Printable(texts[i])
    {
      PrintableConcat(JsonString(ms[i].0), ": ");
      PrintableConcat(JsonString(ms[i].0) + ": ", ValueText(ms[i].1));
    }
    JoinPrintable(texts, ", ");
    PrintableConcat("{", Join(texts, ", "));
    PrintableConcat("{" + Join(texts, ", "), "}");
  }

  lemma ContainsMiddle(a: string, p: string, b: string)
    ensures Contains(a + p + b, p)
  {
    assert (a + p + b)[|a|..][..|p|] == p;
  }

  lemma ContainsAfter(x: string, s: string, p: string)
    requires Contains(s, p)
    ensures Contains(x + s, p)
  {
    var i :| 0 <= i <= |s| && StartsWith(s[i..], p);
    assert (x + s)[|x| + i..] == s[i..];
  }

  lemma {:induction false} JoinContains(parts: seq<string>, sep: string, k: nat)
    requires k < |parts|
    ensures Contains(Join(parts, sep), parts[k])
    decreases |parts|
  {
    if |parts| == 1 {
      ContainsMiddle("", parts[0], "");
      assert "" + parts[0] + "" == parts[0];
    } else if k == 0 {
      ContainsMiddle("", parts[0], sep + Join(parts[1..], sep));
      assert "" + parts[0] + (sep + Join(parts[1..], sep)) == Join(parts, sep);
    } else {
      JoinContains(parts[1..], sep, k - 1);
      ContainsAfter(parts[0] + sep, Join(parts[1..], sep), parts[k]);
    }
  }

  /** Every member appears in the object's text, key and value together. */
  lemma ObjectHasMember(ms: seq<(string, Value)>, k: nat)
    requires k < |ms|
    ensures Contains(JsonObject(ms), Member(ms[k].0, ms[k].1))
  {
    JoinContains(Members(ms), ", ", k);
    ContainsAfter("{", Join(Members(ms), ", "), Member(ms[k].0, ms[k].1));
    var i :| 0 <= i <= |"{" + Join(Members(ms), ", ")| && StartsWith(("{" + Join(Members(ms), ", "))[i..], Member(ms[k].0, ms[k].1));
    assert JsonObject(ms)[i..][..|Member(ms[k].0, ms[k].1)|] == ("{" + Join(Members(ms), ", "))[i..][..|Member(ms[k].0, ms[k].1)|];
  }
}
