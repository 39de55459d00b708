/**
 * The biometric preference record and the text it is kept as in the secure
 * store: the `JSON.stringify` form of `{enabled, userType, setupDate,
 * version}` with keys in that order, and the `JSON.parse` that reads it back.
 */
module PrefCodec {
  import opened Wrappers
  import opened JsText

  datatype Pref = Pref(enabled: bool, userType: string, setupDate: string, version: string)

  /** The body of a JSON string literal: `"` and `\` are escaped with a backslash. */
  function Escape(s: string): (r: string)
    ensures |r| >= |s|
  {
    if s == [] then []
    else (if s[0] == '"' || s[0] == '\\' then ['\\', s[0]] else [s[0]]) + Escape(s[1..])
  }

  function BoolText(b: bool): string {
    if b then "true" else "false"
  }

  /** `JSON.stringify(preference)`. */
  function EncodePref(p: Pref): (text: string)
    ensures StartsWith(text, "{\"enabled\":") && text[|text| - 1] == '}'
  {
    "{\"enabled\":" + (BoolText(p.enabled)
    + (",\"userType\":\"" + (Escape(p.userType)
    + ("\"" + (",\"setupDate\":\"" + (Escape(p.setupDate)
    + ("\"" + (",\"version\":\"" + (Escape(p.version)
    + ("\"" + "}"))))))))))
  }

  /** `prefix` at the front of `s`, and what follows it. */
  function Expect(s: string, prefix: string): (r: Option<string>)
    ensures r.Some? <==> StartsWith(s, prefix)
    ensures r.Some? ==> s == prefix + r.value
  {
    if StartsWith(s, prefix) then Some(s[|prefix|..]) else None
  }

  function ReadBool(s: string): Option<(bool, string)> {
    if StartsWith(s, "true") then Some((true, s[4..]))
    else if StartsWith(s, "false") then Some((false, s[5..]))
    else None
  }

  /**
   * Reads a string literal whose opening quote is already consumed: its
   * unescaped contents and the text after the closing quote. A backslash must
   * be followed by `"` or `\`.
   */
  function Unquote(s: string): Option<(string, string)>
    decreases |s|
  {
    if s == [] then None
    else if s[0] == '"' then Some(([], s[1..]))
    else if s[0] == '\\' then
      if |s| < 2 || !(s[1] == '"' || s[1] == '\\') then None
      else
        var r :- Unquote(s[2..]);
        Some(([s[1]] + r.0, r.1))
    else
      var r :- Unquote(s[1..]);
      Some(([s[0]] + r.0, r.1))
  }

  /** `JSON.parse(text)` for the record form; any other text is read as no record. */
  function DecodePref(text: string): Option<Pref> {
    var a :- Expect(text, "{\"enabled\":");
    var b :- ReadBool(a);
    var c :- Expect(b.1, ",\"userType\":\"");
    var d :- Unquote(c);
    var e :- Expect(d.1, ",\"setupDate\":\"");
    var f :- Unquote(e);
    var g :- Expect(f.1, ",\"version\":\"");
    var h :- Unquote(g);
    if h.1 == "}" then Some(Pref(b.0, d.0, f.0, h.0)) else None
  }

  lemma ExpectPrefix(prefix: string, rest: string)
    ensures Expect(prefix + rest, prefix) == Some(rest)
  {
    assert (prefix + rest)[..|prefix|] == prefix;
    assert (prefix + rest)[|prefix|..] == rest;
  }

  lemma ReadBoolText(b: bool, rest: string)
    ensures ReadBool(BoolText(b) + rest) == Some((b, rest))
  {
    var s := BoolText(b) + rest;
    if b {
      assert s[..4] == "true";
      assert s[4..] == rest;
    } else {
      assert s[..4] != "true" by { assert s[3] == 's'; }
      assert s[..5] == "false";
      assert s[5..] == rest;
    }
  }

  /** An escaped text followed by a closing quote reads back as the text. */
  lemma {:induction false} UnquoteEscape(x: string, rest: string)
    ensures Unquote(Escape(x) + ("\"" + rest)) == Some((x, rest))
    decreases |x|
  {
    var t := "\"" + rest;
    if x == [] {
      assert Escape(x) + t == t;
      assert t[1..] == rest;
    } else {
      var c := x[0];
      var head := if c == '"' || c == '\\' then ['\\', c] else [c];
      assert Escape(x) == head + Escape(x[1..]);
      var s := Escape(x) + t;
      assert s == head + (Escape(x[1..]) + t);
      UnquoteEscape(x[1..], rest);
      if c == '"' || c == '\\' {
        assert s[0] == '\\' && s[1] == c;
        assert s[2..] == Escape(x[1..]) + t;
      } else {
        assert s[0] == c;
        assert s[1..] == Escape(x[1..]) + t;
      }
      assert [c] + x[1..] == x;
    }
  }

  /** Reading back a stored preference record gives the record that was stored. */
  lemma DecodeEncode(p: Pref)
    ensures DecodePref(EncodePref(p)) == Some(p)
  {
    var tail3 := "\"" + "}";
    var rest3 := Escape(p.version) + tail3;
    var tail2 := "\"" + (",\"version\":\"" + rest3);
    var rest2 := Escape(p.setupDate) + tail2;
    var tail1 := "\"" + (",\"setupDate\":\"" + rest2);
    var rest1 := Escape(p.userType) + tail1;
    var rest0 := BoolText(p.enabled) + (",\"userType\":\"" + rest1);
    assert EncodePref(p) == "{\"enabled\":" + rest0;
    ExpectPrefix("{\"enabled\":", rest0);
    ReadBoolText(p.enabled, ",\"userType\":\"" + rest1);
    ExpectPrefix(",\"userType\":\"", rest1);
    UnquoteEscape(p.userType, ",\"setupDate\":\"" + rest2);
    ExpectPrefix(",\"setupDate\":\"", rest2);
    UnquoteEscape(p.setupDate, ",\"version\":\"" + rest3);
    ExpectPrefix(",\"version\":\"", rest3);
    UnquoteEscape(p.version, "}");
  }

  /** Distinct records are stored as distinct texts. */
  lemma EncodeInjective(p: Pref, q: Pref)
    requires EncodePref(p) == EncodePref(q)
    ensures p == q
  {
    DecodeEncode(p);
    DecodeEncode(q);
  }
}
