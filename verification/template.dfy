/**
 * The message template: the part of Python's `str.format` that the render handler
 * exercises when it calls `message_format.format(file=name)` with no positional
 * arguments. The template is read left to right and the first failure wins, as in
 * CPython, which renders each replacement field before it parses the next one.
 */
module Template {

  /** How `template.format(file=name)` ends. */
  datatype FormatOutcome =
    | Formatted(text: string)   // the formatted message
    | KeyError(key: string)     // `{key}` names a keyword other than `file`
    | IndexError                // `{}` or `{digits}`: a positional field, and there are no positional arguments
    | ValueError                // a single `{` or `}`, or a field index with too many decimal digits
    | OutsideSubset             // a field using conversion, format spec, attribute, index or nesting: not modelled

  /** The only keyword the handler supplies. */
  const FileKey := "file"

  /** PY_SSIZE_T_MAX on a 64-bit build: the largest field index CPython parses. */
  const SsizeMax := 0x7fff_ffff_ffff_ffff

  predicate IsDigit(c: char) { '0' <= c <= '9' }

  predicate AllDigits(name: string) { forall i :: 0 <= i < |name| ==> IsDigit(name[i]) }

  /**
   * Characters that make a replacement field more than a bare name (`!` conversion,
   * `:` format spec, `.` attribute, `[` index, `{` nesting), and non-ASCII characters,
   * among which CPython also counts Unicode decimal digits as positional indices.
   */
  predicate IsSpecial(c: char) { c == '!' || c == ':' || c == '.' || c == '[' || c == '{' || c as int > 0x7f }

  predicate HasSpecial(name: string) { exists i :: 0 <= i < |name| && IsSpecial(name[i]) }

  /**
   * A field name that is looked up as a keyword and is not `file`: formatting it raises
   * KeyError. Its leading digits, if any, stay within the index range CPython parses.
   */
  predicate IsUnknownKeyword(name: string)
  {
    && name != FileKey && !AllDigits(name) && !HasSpecial(name)
    && DecimalValue(LeadingDigits(name)) <= SsizeMax
    && forall i :: 0 <= i < |name| ==> name[i] != '}'
  }

  /**
   * The longest run of ASCII digits at the start of `name`. CPython reads a field name
   * as an index digit by digit and gives up on overflow before it meets a non-digit.
   */
  function LeadingDigits(name: string): (p: string)
    ensures AllDigits(p) && |p| <= |name| && p == name[..|p|]
    ensures |p| < |name| ==> !IsDigit(name[|p|])
    ensures AllDigits(name) ==> p == name
    decreases |name|
  {
    if name == [] || !IsDigit(name[0]) then []
    else [name[0]] + LeadingDigits(name[1..])
  }

  /** The value of a string of decimal digits. */
  function DecimalValue(digits: string): nat
    requires AllDigits(digits)
    decreases |digits|
  {
    if digits == [] then 0
    else DecimalValue(digits[..|digits| - 1]) * 10 + (digits[|digits| - 1] as int - '0' as int)
  }

  /** The position of the first `}` in `t`, or `|t|` when there is none. */
  function CloseIndex(t: string): (k: nat)
    ensures k <= |t|
    ensures k < |t| ==> t[k] == '}'
    ensures forall j :: 0 <= j < k ==> t[j] != '}'
    decreases |t|
  {
    if t == [] || t[0] == '}' then 0 else 1 + CloseIndex(t[1..])
  }

  /** What a replacement field `{name}` produces when only the keyword `file` is given. */
  function Field(name: string, file: string): (r: FormatOutcome)
    requires forall i :: 0 <= i < |name| ==> name[i] != '}'
    ensures r.Formatted? <==> name == FileKey
    ensures r.Formatted? ==> r.text == file
    ensures r.KeyError? <==> IsUnknownKeyword(name)
    ensures r.KeyError? ==> r.key == name
    ensures r.ValueError? <==> !HasSpecial(name) && DecimalValue(LeadingDigits(name)) > SsizeMax
    ensures r.IndexError? <==> !HasSpecial(name) && AllDigits(name) && DecimalValue(name) <= SsizeMax
  {
    if HasSpecial(name) then OutsideSubset
    else if DecimalValue(LeadingDigits(name)) > SsizeMax then ValueError
    else if AllDigits(name) then IndexError
    else if name == FileKey then Formatted(file)
    else KeyError(name)
  }

  /** Puts `prefix` in front of a formatted result; a failure stays the same failure. */
  function Then(prefix: string, r: FormatOutcome): FormatOutcome
  {
    if r.Formatted? then Formatted(prefix + r.text) else r
  }

  /** `t.format(file=file)`. Only an unknown keyword ever raises KeyError. */
  function Format(t: string, file: string): (r: FormatOutcome)
    ensures r.KeyError? ==> IsUnknownKeyword(r.key)
    decreases |t|
  {
    if t == [] then Formatted([])
    else if |t| >= 2 && t[0] == t[1] && (t[0] == '{' || t[0] == '}') then
      Then([t[0]], Format(t[2..], file))
    else if t[0] == '}' then ValueError
    else if t[0] == '{' then
      var k := CloseIndex(t[1..]);
      if k == |t| - 1 then ValueError
      else
        var f := Field(t[1..k + 1], file);
        if f.Formatted? then Then(f.text, Format(t[k + 2..], file)) else f
    else Then([t[0]], Format(t[1..], file))
  }

  // ---------------------------------------------------------------------------
  // A reference definition: templates spelled from pieces, and what they mean.
  // ---------------------------------------------------------------------------

  /** A piece of a template inside the modelled grammar. */
  datatype Piece = Literal(c: char) | OpenBrace | CloseBrace | FileField

  /** Literal pieces are never braces: a brace is written as an escape. */
  predicate Plain(ps: seq<Piece>)
  {
    forall i :: 0 <= i < |ps| ==> ps[i].Literal? ==> ps[i].c != '{' && ps[i].c != '}'
  }

  /** How one piece is written in a template. */
  function SpellPiece(p: Piece): string
  {
    match p
    case Literal(c) => [c]
    case OpenBrace => "{{"
    case CloseBrace => "}}"
    case FileField => "{file}"
  }

  /** What one piece stands for in the message. */
  function ExpandPiece(p: Piece, file: string): string
  {
    match p
    case Literal(c) => [c]
    case OpenBrace => "{"
    case CloseBrace => "}"
    case FileField => file
  }

  /** The template text that spells the pieces. */
  function Spell(ps: seq<Piece>): string
    decreases |ps|
  {
    if ps == [] then [] else SpellPiece(ps[0]) + Spell(ps[1..])
  }

  /** The message the pieces stand for: escapes become single braces, every `{file}` becomes the file name. */
  function Expand(ps: seq<Piece>, file: string): string
    decreases |ps|
  {
    if ps == [] then [] else ExpandPiece(ps[0], file) + Expand(ps[1..], file)
  }

  /** The pieces that spell a text with no braces: one literal per character. */
  function Literals(s: string): (ps: seq<Piece>)
    ensures |ps| == |s|
    ensures forall i :: 0 <= i < |s| ==> ps[i] == Literal(s[i])
  {
    seq(|s|, i requires 0 <= i < |s| => Literal(s[i]))
  }

  lemma ThenThen(a: string, b: string, r: FormatOutcome)
    ensures Then(a, Then(b, r)) == Then(a + b, r)
  {
    if r.Formatted? {
      assert a + (b + r.text) == (a + b) + r.text;
    }
  }

  /** One plain piece at the front of a template formats as what it stands for. */
  lemma FormatPiece(p: Piece, tail: string, file: string)
    requires p.Literal? ==> p.c != '{' && p.c != '}'
    ensures Format(SpellPiece(p) + tail, file) == Then(ExpandPiece(p, file), Format(tail, file))
  {
    var t := SpellPiece(p) + tail;
    match p
    case Literal(c) =>
      assert t[1..] == tail;
    case OpenBrace =>
      assert t[2..] == tail;
    case CloseBrace =>
      assert t[2..] == tail;
    case FileField =>
      assert t[1..][4] == '}';
      assert t[1..][..4] == FileKey;
      var k := CloseIndex(t[1..]);
      assert k == 4;
      assert t[1..k + 1] == FileKey;
      assert t[k + 2..] == tail;
  }

  /**
   * A template that starts with plain pieces formats that prefix exactly as the
   * pieces say and then carries on with the rest.
   */
  lemma {:induction false} FormatSpelled(ps: seq<Piece>, rest: string, file: string)
    requires Plain(ps)
    ensures Format(Spell(ps) + rest, file) == Then(Expand(ps, file), Format(rest, file))
    decreases |ps|
  {
    if ps == [] {
      assert Spell(ps) + rest == rest;
      var r := Format(rest, file);
      if r.Formatted? { assert [] + r.text == r.text; }
    } else {
      var tail := Spell(ps[1..]) + rest;
      assert Spell(ps) + rest == SpellPiece(ps[0]) + tail;
      assert Plain(ps[1..]) by {
        forall i | 0 <= i < |ps[1..]| ensures ps[1..][i] == ps[i + 1] { }
      }
      assert ps[0].Literal? ==> ps[0].c != '{' && ps[0].c != '}';
      FormatSpelled(ps[1..], rest, file);
      FormatPiece(ps[0], tail, file);
      ThenThen(ExpandPiece(ps[0], file), Expand(ps[1..], file), Format(rest, file));
    }
  }

  /** A template of literals, `{{`, `}}` and `{file}` formats with every `{file}` replaced by the name. */
  lemma PlainTemplateFormats(ps: seq<Piece>, file: string)
    requires Plain(ps)
    ensures Format(Spell(ps), file) == Formatted(Expand(ps, file))
  {
    FormatSpelled(ps, [], file);
    assert Spell(ps) + [] == Spell(ps);
  }

  /** A plain prefix followed by `{key}` for an unknown keyword raises KeyError for that key, whatever follows. */
  lemma UnknownKeywordRaises(ps: seq<Piece>, key: string, rest: string, file: string)
    requires Plain(ps) && IsUnknownKeyword(key)
    ensures Format(Spell(ps) + "{" + key + "}" + rest, file) == KeyError(key)
  {
    var u := "{" + key + "}" + rest;
    assert Spell(ps) + "{" + key + "}" + rest == Spell(ps) + u;
    FormatSpelled(ps, u, file);
    assert key != [] by { assert !AllDigits(key); }
    assert u[1] == key[0] && !IsSpecial(key[0]);
    assert u[1..][|key|] == '}';
    assert u[1..][..|key|] == key;
    var k := CloseIndex(u[1..]);
    assert k == |key|;
    assert u[1..k + 1] == key;
  }

  /**
   * A plain prefix followed by a field whose leading digits exceed PY_SSIZE_T_MAX raises
   * ValueError ("Too many decimal digits"), whatever characters follow the digits.
   */
  lemma OverlongIndexRaises(ps: seq<Piece>, name: string, rest: string, file: string)
    requires Plain(ps) && !HasSpecial(name) && DecimalValue(LeadingDigits(name)) > SsizeMax
    requires forall i :: 0 <= i < |name| ==> name[i] != '}'
    ensures Format(Spell(ps) + "{" + name + "}" + rest, file) == ValueError
  {
    var u := "{" + name + "}" + rest;
    assert Spell(ps) + "{" + name + "}" + rest == Spell(ps) + u;
    FormatSpelled(ps, u, file);
    assert name != [];
    assert u[1] == name[0] && !IsSpecial(name[0]);
    assert u[1..][|name|] == '}';
    assert u[1..][..|name|] == name;
    var k := CloseIndex(u[1..]);
    assert k == |name|;
    assert u[1..k + 1] == name;
  }

  /** A plain prefix followed by `{}` raises IndexError: there is no positional argument. */
  lemma PositionalFieldRaises(ps: seq<Piece>, rest: string, file: string)
    requires Plain(ps)
    ensures Format(Spell(ps) + "{}" + rest, file) == IndexError
  {
    var u := "{}" + rest;
    assert Spell(ps) + "{}" + rest == Spell(ps) + u;
    FormatSpelled(ps, u, file);
    assert CloseIndex(u[1..]) == 0;
    assert u[1..1] == [];
  }

  /** A plain prefix followed by a single `{` at the end raises ValueError. */
  lemma TrailingBraceRaises(ps: seq<Piece>, file: string)
    requires Plain(ps)
    ensures Format(Spell(ps) + "{", file) == ValueError
  {
    FormatSpelled(ps, "{", file);
  }

  /** A plain prefix followed by a `}` that does not start an escape raises ValueError. */
  lemma StrayCloseBraceRaises(ps: seq<Piece>, rest: string, file: string)
    requires Plain(ps) && (rest == [] || rest[0] != '}')
    ensures Format(Spell(ps) + "}" + rest, file) == ValueError
  {
    var u := "}" + rest;
    assert Spell(ps) + "}" + rest == Spell(ps) + u;
    FormatSpelled(ps, u, file);
  }

  /** A text with no braces spells itself and means itself. */
  lemma {:induction false} LiteralsMeanThemselves(s: string, file: string)
    requires forall i :: 0 <= i < |s| ==> s[i] != '{' && s[i] != '}'
    ensures Plain(Literals(s))
    ensures Spell(Literals(s)) == s && Expand(Literals(s), file) == s
    decreases |s|
  {
    if s != [] {
      LiteralsMeanThemselves(s[1..], file);
      assert Literals(s)[1..] == Literals(s[1..]);
    }
  }

  // ---------------------------------------------------------------------------
  // KeyError is only ever raised for a field that is really in the template.
  // ---------------------------------------------------------------------------

  /** `t` holds the replacement field `{name}` at position `i`. */
  ghost predicate FieldAt(t: string, i: int, name: string)
  {
    0 <= i && i + |name| + 2 <= |t| && t[i] == '{' && t[i + 1..i + 1 + |name|] == name && t[i + 1 + |name|] == '}'
  }

  lemma FieldAtShift(t: string, d: nat, i: int, name: string)
    requires d <= |t| && FieldAt(t[d..], i, name)
    ensures FieldAt(t, i + d, name)
  {
    assert t[d..][i + 1..i + 1 + |name|] == t[i + d + 1..i + d + 1 + |name|];
  }

  /** A KeyError always names an unknown keyword written as a field `{key}` somewhere in the template. */
  lemma {:induction false} KeyErrorNamesField(t: string, file: string)
    requires Format(t, file).KeyError?
    ensures IsUnknownKeyword(Format(t, file).key)
    ensures exists i :: FieldAt(t, i, Format(t, file).key)
    decreases |t|
  {
    var key := Format(t, file).key;
    if |t| >= 2 && t[0] == t[1] && (t[0] == '{' || t[0] == '}') {
      KeyErrorNamesField(t[2..], file);
      var i :| FieldAt(t[2..], i, key);
      FieldAtShift(t, 2, i, key);
    } else if t[0] == '{' {
      var k := CloseIndex(t[1..]);
      var f := Field(t[1..k + 1], file);
      if f.Formatted? {
        KeyErrorNamesField(t[k + 2..], file);
        var i :| FieldAt(t[k + 2..], i, key);
        FieldAtShift(t, k + 2, i, key);
      } else {
        assert key == t[1..k + 1];
        assert forall j :: 0 <= j < |key| ==> key[j] == t[1..][j];
        assert FieldAt(t, 0, key);
      }
    } else {
      KeyErrorNamesField(t[1..], file);
      var i :| FieldAt(t[1..], i, key);
      FieldAtShift(t, 1, i, key);
    }
  }
}
