/**
 * The text stored in an accommodation's `amenities` column: the list of
 * amenity tags written as an array of string literals, `["wifi","gym"]`.
 * Inside a literal only `"` and `\` are escaped, each by a backslash. The
 * only facts the rest of the model uses are that the encoding is never
 * empty and that `Decode` undoes `Encode`, so it stands in for any
 * injective serializer.
 */
module Amenities {
  import opened Common

  /** The eight tags the admin accommodation form can tick, in the order it appends them. */
  const FormTags: seq<string> :=
    ["wifi", "parking", "laundry", "gym", "furnished", "security", "pool", "study_area"]

  function EscapeChar(c: char): string {
    if c == '"' || c == '\\' then ['\\', c] else [c]
  }

  function Escape(s: string): string {
    if s == [] then [] else EscapeChar(s[0]) + Escape(s[1..])
  }

  /** One quoted string literal. */
  function Literal(s: string): string {
    "\"" + Escape(s) + "\""
  }

  /** The literals after the first one, each preceded by a comma. */
  function EncodeRest(items: seq<string>): string {
    if items == [] then "" else "," + Literal(items[0]) + EncodeRest(items[1..])
  }

  /** The column text for a list of tags. */
  function Encode(items: seq<string>): (text: string)
    ensures |text| >= 2 && text[0] == '[' && text[|text| - 1] == ']'
  {
    if items == [] then "[]" else "[" + Literal(items[0]) + EncodeRest(items[1..]) + "]"
  }

  /**
   * Reads the body of a string literal, the opening quote already consumed:
   * the unescaped text and whatever follows the closing quote, or None when
   * the text ends before the closing quote.
   */
  function ParseBody(t: string): (r: Option<(string, string)>)
    ensures r.Some? ==> |r.value.1| < |t|
    decreases |t|
  {
    if t == [] then None
    else if t[0] == '"' then Some(([], t[1..]))
    else if t[0] == '\\' then
      if |t| < 2 then None
      else
        match ParseBody(t[2..])
        case None => None
        case Some((s, rest)) => Some(([t[1]] + s, rest))
    else
      match ParseBody(t[1..])
      case None => None
      case Some((s, rest)) => Some(([t[0]] + s, rest))
  }

  /** Reads `,"…","…"]` up to and including the closing bracket, which must end the text. */
  function ParseRest(t: string): (r: Option<seq<string>>)
    decreases |t|
  {
    if t == "]" then Some([])
    else if |t| >= 2 && t[0] == ',' && t[1] == '"' then
      match ParseBody(t[2..])
      case None => None
      case Some((s, rest)) =>
        match ParseRest(rest)
        case None => None
        case Some(more) => Some([s] + more)
    else None
  }

  /** The list of tags a column text stands for, or None when the text is malformed. */
  function Decode(t: string): (r: Option<seq<string>>)
    ensures t == "[]" ==> r == Some([])
  {
    if t == "[]" then Some([])
    else if |t| >= 2 && t[0] == '[' && t[1] == '"' then
      match ParseBody(t[2..])
      case None => None
      case Some((s, rest)) =>
        match ParseRest(rest)
        case None => None
        case Some(more) => Some([s] + more)
    else None
  }

  /** A literal's body followed by its closing quote reads back as the original text and leaves the remainder. */
  lemma {:induction false} ParseEscaped(s: string, rest: string)
    ensures ParseBody(Escape(s) + "\"" + rest) == Some((s, rest))
    decreases |s|
  {
    var t := Escape(s) + "\"" + rest;
    if s == [] {
      assert t == "\"" + rest;
    } else {
      var tail := Escape(s[1..]) + "\"" + rest;
      assert t == EscapeChar(s[0]) + tail;
      ParseEscaped(s[1..], rest);
      if s[0] == '"' || s[0] == '\\' {
        assert t[2..] == tail;
      } else {
        assert t[1..] == tail;
      }
      assert [s[0]] + s[1..] == s;
    }
  }

  /** The two-character opener `c"` followed by some text: the text starts at index 2. */
  lemma AfterOpener(c: char, x: string)
    ensures var t := [c, '"'] + x; |t| >= 2 && t[0] == c && t[1] == '"' && t[2..] == x
  {
  }

  lemma RestShape(items: seq<string>)
    requires items != []
    ensures EncodeRest(items) + "]" == [',', '"'] + (Escape(items[0]) + "\"" + (EncodeRest(items[1..]) + "]"))
  {
  }

  lemma EncodeShape(items: seq<string>)
    requires items != []
    ensures Encode(items) == ['[', '"'] + (Escape(items[0]) + "\"" + (EncodeRest(items[1..]) + "]"))
  {
  }

  lemma ParseRestStep(t: string, first: string, rest: string, more: seq<string>)
    requires |t| >= 2 && t[0] == ',' && t[1] == '"'
    requires ParseBody(t[2..]) == Some((first, rest))
    requires ParseRest(rest) == Some(more)
    ensures ParseRest(t) == Some([first] + more)
  {
    assert t != "]";
  }

  lemma {:induction false} ParseRestEncoded(items: seq<string>)
    ensures ParseRest(EncodeRest(items) + "]") == Some(items)
    decreases |items|
  {
    if items == [] {
      assert EncodeRest(items) + "]" == "]";
    } else {
      var after := EncodeRest(items[1..]) + "]";
      var body := Escape(items[0]) + "\"" + after;
      RestShape(items);
      AfterOpener(',', body);
      ParseEscaped(items[0], after);
      ParseRestEncoded(items[1..]);
      ParseRestStep(EncodeRest(items) + "]", items[0], after, items[1..]);
      assert [items[0]] + items[1..] == items;
    }
  }

  lemma DecodeFirst(t: string, first: string, rest: string, more: seq<string>)
    requires |t| >= 2 && t[0] == '[' && t[1] == '"'
    requires ParseBody(t[2..]) == Some((first, rest))
    requires ParseRest(rest) == Some(more)
    ensures Decode(t) == Some([first] + more)
  {
    assert t != "[]";
  }

  /** Decoding an encoded list gives the list back. */
  lemma {:induction false} DecodeEncode(items: seq<string>)
    ensures Decode(Encode(items)) == Some(items)
  {
    if items != [] {
      var after := EncodeRest(items[1..]) + "]";
      var body := Escape(items[0]) + "\"" + after;
      EncodeShape(items);
      AfterOpener('[', body);
      ParseEscaped(items[0], after);
      ParseRestEncoded(items[1..]);
      DecodeFirst(Encode(items), items[0], after, items[1..]);
      assert [items[0]] + items[1..] == items;
    }
  }

  /** Two lists with the same encoding are the same list. */
  lemma {:induction false} EncodeInjective(a: seq<string>, b: seq<string>)
    requires Encode(a) == Encode(b)
    ensures a == b
  {
    DecodeEncode(a);
    DecodeEncode(b);
  }
}
