/** flux_mod/nodes.py, `SkipLayerForward.skip_layer`: a list of block indices
    typed by the user is split with `re.split(r"\s*,\s*", text)` and every
    piece is converted with Python's `int()`; the first piece `int()` rejects
    raises a ValueError. */
module LayerList {
  import opened Common

  /** `str.isspace()`, which is also what `\s` matches in a str pattern. */
  predicate IsSpace(c: char) {
    || ('\t' <= c <= '\r')
    || ('\U{1C}' <= c <= ' ')
    || c == '\U{85}' || c == '\U{A0}' || c == '\U{1680}'
    || ('\U{2000}' <= c <= '\U{200A}')
    || c == '\U{2028}' || c == '\U{2029}' || c == '\U{202F}' || c == '\U{205F}' || c == '\U{3000}'
  }

  /** The whitespace `int()` skips around a literal: the ASCII space, tab and
      line-break characters, and every non-ASCII `str.isspace()` character
      (CPython turns those into spaces first). The ASCII separators
      U+001C..U+001F are not skipped. */
  predicate IntSpace(c: char) {
    ('\t' <= c <= '\r') || c == ' ' || (c > '\U{7F}' && IsSpace(c))
  }

  /** `s` without its longest prefix of `space` characters. */
  function TrimStart(s: string, space: char -> bool): (r: string)
    ensures |r| <= |s| && r == s[|s| - |r|..]
    ensures forall i :: 0 <= i < |s| - |r| ==> space(s[i])
    ensures r == [] || !space(r[0])
  {
    if |s| > 0 && space(s[0]) then TrimStart(s[1..], space) else s
  }

  /** `s` without its longest suffix of `space` characters. */
  function TrimEnd(s: string, space: char -> bool): (r: string)
    ensures |r| <= |s| && r == s[..|r|]
    ensures forall i :: |r| <= i < |s| ==> space(s[i])
    ensures r == [] || !space(r[|r| - 1])
  {
    if |s| > 0 && space(s[|s| - 1]) then TrimEnd(s[..|s| - 1], space) else s
  }

  /** Number of commas in `s`. */
  function CommaCount(s: string): nat {
    if s == [] then 0 else (if s[0] == ',' then 1 else 0) + CommaCount(s[1..])
  }

  /** `",".join(pieces)` */
  function Join(pieces: seq<string>): string
    requires |pieces| > 0
  {
    if |pieces| == 1 then pieces[0] else pieces[0] + "," + Join(pieces[1..])
  }

  /** The comma-separated fields of `s`, whitespace left in place: one more
      field than there are commas, none of them holding a comma, and joining
      them with commas gives `s` back. */
  function Fields(s: string): (r: seq<string>)
    ensures |r| == CommaCount(s) + 1
    ensures forall i :: 0 <= i < |r| ==> ',' !in r[i]
    ensures Join(r) == s
  {
    if s == [] then [""]
    else
      var rest := Fields(s[1..]);
      if s[0] == ',' then
        [""] + rest
      else
        assert Join(rest) == rest[0] + (if |rest| == 1 then "" else "," + Join(rest[1..]));
        [[s[0]] + rest[0]] + rest[1..]
  }

  /** Fields without commas joined and split again come back unchanged. */
  lemma {:induction false} FieldsOfJoin(pieces: seq<string>)
    requires |pieces| > 0
    requires forall i :: 0 <= i < |pieces| ==> ',' !in pieces[i]
    ensures Fields(Join(pieces)) == pieces
  {
    if |pieces| == 1 {
      FieldsWithoutComma(pieces[0]);
    } else {
      FieldsOfJoin(pieces[1..]);
      FieldsAfterField(pieces[0], Join(pieces[1..]));
    }
  }

  lemma {:induction false} FieldsWithoutComma(a: string)
    requires ',' !in a
    ensures Fields(a) == [a]
  {
    if a != [] {
      FieldsWithoutComma(a[1..]);
    }
  }

  lemma {:induction false} FieldsAfterField(a: string, rest: string)
    requires ',' !in a
    ensures Fields(a + "," + rest) == [a] + Fields(rest)
  {
    if a == [] {
      assert a + "," + rest == [','] + rest;
      assert (a + "," + rest)[1..] == rest;
    } else {
      FieldsAfterField(a[1..], rest);
      assert (a + "," + rest)[1..] == a[1..] + "," + rest;
      assert [a[0]] + a[1..] == a;
    }
  }

  /** `re.split(r"\s*,\s*", s)`: the comma-separated fields of `s`, each
      without the whitespace that touches a comma. */
  function SplitLayers(s: string): (r: seq<string>)
    ensures |r| == CommaCount(s) + 1
    ensures forall i :: 0 <= i < |r| ==> ',' !in r[i]
  {
    var fields := Fields(s);
    seq(|fields|, i requires 0 <= i < |fields| => Unpad(fields[i], i == 0, i == |fields| - 1))
  }

  /** `s` consists of `space` characters only. */
  predicate AllOf(s: string, space: char -> bool) {
    forall i :: 0 <= i < |s| ==> space(s[i])
  }

  /** `field[a..b]` is `field` with whitespace cut from its front (never
      from the first field) and from its back (never from the last). */
  ghost predicate Unpadded(field: string, first: bool, last: bool, a: int, b: int) {
    && 0 <= a <= b <= |field|
    && (first ==> a == 0)
    && (last ==> b == |field|)
    && AllOf(field[..a], IsSpace)
    && AllOf(field[b..], IsSpace)
  }

  /** A field with the whitespace before it (unless it is the first field)
      and after it (unless it is the last) removed, all of that whitespace:
      the slice left neither starts nor ends with whitespace that touched a
      comma. */
  function Unpad(field: string, first: bool, last: bool): (r: string)
    ensures forall c :: c in r ==> c in field
    ensures !first ==> r == [] || !IsSpace(r[0])
    ensures !last ==> r == [] || !IsSpace(r[|r| - 1])
  {
    var f := if first then field else TrimStart(field, IsSpace);
    if last then f else TrimEnd(f, IsSpace)
  }

  /** What `Unpad` keeps is a slice of the field, and only whitespace is
      cut off around it. */
  lemma UnpadSlice(field: string, first: bool, last: bool)
    ensures exists a, b :: Unpadded(field, first, last, a, b) && Unpad(field, first, last) == field[a..b]
  {
    var f := if first then field else TrimStart(field, IsSpace);
    var a := |field| - |f|;
    assert AllOf(field[..a], IsSpace) by {
      forall i | 0 <= i < a
        ensures IsSpace(field[..a][i])
      {
        assert field[..a][i] == field[i];
      }
    }
    var r := if last then f else TrimEnd(f, IsSpace);
    var b := a + |r|;
    assert AllOf(field[b..], IsSpace) by {
      forall i | 0 <= i < |field| - b
        ensures IsSpace(field[b..][i])
      {
        assert field[b..][i] == f[|r| + i];
      }
    }
    assert r == field[a..b];
    assert Unpadded(field, first, last, a, b);
  }

  /** Piece `i` of `re.split` is field `i` of the text with the whitespace
      that touches a comma cut off: all of that whitespace, and nothing
      else. */
  lemma SplitLayersPiece(s: string, i: nat)
    requires i <= CommaCount(s)
    ensures var field, piece := Fields(s)[i], SplitLayers(s)[i];
      && (exists a, b :: Unpadded(field, i == 0, i == CommaCount(s), a, b) && piece == field[a..b])
      && (i > 0 ==> piece == [] || !IsSpace(piece[0]))
      && (i < CommaCount(s) ==> piece == [] || !IsSpace(piece[|piece| - 1]))
  {
    SplitLayersAt(s, i);
    UnpadSlice(Fields(s)[i], i == 0, i == CommaCount(s));
  }

  lemma SplitLayersAt(s: string, i: nat)
    requires i <= CommaCount(s)
    ensures SplitLayers(s)[i] == Unpad(Fields(s)[i], i == 0, i == CommaCount(s))
  {
  }

  lemma UnpadSpaces(before: string, s: string, after: string, first: bool, last: bool)
    requires AllOf(before, IsSpace) && AllOf(after, IsSpace)
    requires |s| > 0 && !IsSpace(s[0]) && !IsSpace(s[|s| - 1])
    ensures Unpad(before + s + after, first, last) ==
      (if first then before else "") + s + (if last then after else "")
  {
    var field := before + s + after;
    var kept := (if first then before else "") + s + (if last then after else "");
    assert kept == if first && last then field else if first then before + s else if last then s + after else s;
    TrimAround(before, s, after, IsSpace);
  }

  /** Trimming a text that is padded with `space` characters around a core
      that starts and ends with something else. */
  lemma TrimAround(before: string, s: string, after: string, space: char -> bool)
    requires AllOf(before, space) && AllOf(after, space)
    requires |s| > 0 && !space(s[0]) && !space(s[|s| - 1])
    ensures TrimStart(before + s + after, space) == s + after
    ensures TrimEnd(before + s + after, space) == before + s
    ensures TrimEnd(s + after, space) == s
  {
    assert before + s + after == before + (s + after);
    TrimStartSpaces(before, s + after, space);
    TrimEndSpaces(before + s, after, space);
    TrimEndSpaces(s, after, space);
  }

  lemma {:induction false} TrimStartSpaces(pad: string, s: string, space: char -> bool)
    requires AllOf(pad, space) && (s == [] || !space(s[0]))
    ensures TrimStart(pad + s, space) == s
  {
    if pad == [] {
      assert pad + s == s;
    } else {
      assert (pad + s)[1..] == pad[1..] + s;
      TrimStartSpaces(pad[1..], s, space);
    }
  }

  lemma {:induction false} TrimEndSpaces(s: string, pad: string, space: char -> bool)
    requires AllOf(pad, space) && (s == [] || !space(s[|s| - 1]))
    ensures TrimEnd(s + pad, space) == s
  {
    if pad == [] {
      assert s + pad == s;
    } else {
      assert (s + pad)[..|s + pad| - 1] == s + pad[..|pad| - 1];
      TrimEndSpaces(s, pad[..|pad| - 1], space);
    }
  }

  predicate IsDigit(c: char) {
    '0' <= c <= '9'
  }

  /** The digits of a base-10 literal: at least one digit, with single
      underscores allowed between two digits. */
  predicate IsDigitGroup(s: string) {
    && |s| > 0
    && IsDigit(s[0])
    && IsDigit(s[|s| - 1])
    && forall i :: 0 <= i < |s| ==> IsDigit(s[i]) || (s[i] == '_' && i + 1 < |s| && IsDigit(s[i + 1]))
  }

  /** The number the digits of `s` denote, underscores ignored. */
  function DigitsValue(s: string): nat {
    if s == [] then 0
    else
      var c := s[|s| - 1];
      if IsDigit(c) then 10 * DigitsValue(s[..|s| - 1]) + (c as int - '0' as int)
      else DigitsValue(s[..|s| - 1])
  }

  /** A literal `int()` accepts once the surrounding whitespace is gone:
      an optional sign followed by a digit group. */
  ghost predicate IsIntLiteral(t: string) {
    || IsDigitGroup(t)
    || (|t| > 0 && (t[0] == '+' || t[0] == '-') && IsDigitGroup(t[1..]))
  }

  /** The value of an integer literal with no whitespace around it, or
      None when `t` is not one. */
  function LiteralValue(t: string): (r: Option<int>)
    ensures r.Some? <==> IsIntLiteral(t)
  {
    if IsDigitGroup(t) then Some(DigitsValue(t))
    else if |t| > 0 && t[0] == '-' && IsDigitGroup(t[1..]) then Some(0 - DigitsValue(t[1..]))
    else if |t| > 0 && t[0] == '+' && IsDigitGroup(t[1..]) then Some(DigitsValue(t[1..]))
    else None
  }

  /** `int(piece)` with the default base 10. */
  function ParseInt(piece: string): (r: Result<int>)
    ensures r.Ok? <==> IsIntLiteral(TrimEnd(TrimStart(piece, IntSpace), IntSpace))
    ensures r.Err? ==> r.error == ValueError(piece)
  {
    var v := LiteralValue(TrimEnd(TrimStart(piece, IntSpace), IntSpace));
    if v.Some? then Ok(v.value) else Err(ValueError(piece))
  }

  /** `[int(num) for num in pieces]`, evaluated left to right. */
  function ParseAll(pieces: seq<string>): (r: Result<seq<int>>)
    ensures r.Ok? <==> forall i :: 0 <= i < |pieces| ==> ParseInt(pieces[i]).Ok?
    ensures r.Ok? ==> |r.value| == |pieces|
    ensures r.Ok? ==> forall i :: 0 <= i < |pieces| ==> r.value[i] == ParseInt(pieces[i]).value
  {
    if pieces == [] then Ok([])
    else
      match ParseInt(pieces[0])
      case Err(e) => Err(e)
      case Ok(n) =>
        var rest := ParseAll(pieces[1..]);
        if rest.Err? then Err(rest.error) else Ok([n] + rest.value)
  }

  /** The error raised is that of the first piece `int()` rejects. */
  lemma {:induction false} ParseAllFirstError(pieces: seq<string>, i: nat)
    requires i < |pieces| && ParseInt(pieces[i]).Err?
    requires forall j :: 0 <= j < i ==> ParseInt(pieces[j]).Ok?
    ensures ParseAll(pieces) == Err(ParseInt(pieces[i]).error)
  {
    if i > 0 {
      ParseAllFirstError(pieces[1..], i - 1);
    }
  }

  /** One of the two `skip_layer` conversions: the list holds one index per
      comma-separated field, so it is never empty. */
  function ParseLayerList(s: string): (r: Result<seq<int>>)
    ensures r.Ok? ==> |r.value| == CommaCount(s) + 1
    ensures r.Ok? <==> forall i :: 0 <= i < |SplitLayers(s)| ==> ParseInt(SplitLayers(s)[i]).Ok?
  {
    ParseAll(SplitLayers(s))
  }

  // ---------------------------------------------------------------------
  // A printer for layer lists, the inverse the parser is checked against.

  function DigitChar(d: nat): (c: char)
    requires d < 10
    ensures IsDigit(c) && c as int - '0' as int == d
  {
    ('0' as int + d) as char
  }

  /** `str(n)` for a natural number. */
  function ShowNat(n: nat): (r: string)
    ensures |r| > 0 && forall i :: 0 <= i < |r| ==> IsDigit(r[i])
  {
    if n < 10 then [DigitChar(n)] else ShowNat(n / 10) + [DigitChar(n % 10)]
  }

  /** `str(n)` */
  function Show(n: int): (r: string)
    ensures |r| > 0 && IsDigit(r[|r| - 1]) && (IsDigit(r[0]) || r[0] == '-')
    ensures ',' !in r && forall i :: 0 <= i < |r| ==> !IsSpace(r[i])
  {
    if n < 0 then "-" + ShowNat(-n) else ShowNat(n)
  }

  /** The fields of `", ".join(str(n) for n in xs)` when it is split at its
      commas: every number but the first keeps the space before it. */
  function FormatFields(xs: seq<int>): (r: seq<string>)
    ensures |r| == |xs|
    ensures forall i :: 0 <= i < |r| ==> ',' !in r[i]
  {
    seq(|xs|, i requires 0 <= i < |xs| => (if i == 0 then "" else " ") + Show(xs[i]))
  }

  /** `", ".join(str(n) for n in xs)`, the form of the node's defaults. */
  function Format(xs: seq<int>): string {
    if xs == [] then "" else Join(FormatFields(xs))
  }

  lemma {:induction false} ShowNatValue(n: nat)
    ensures IsDigitGroup(ShowNat(n)) && DigitsValue(ShowNat(n)) == n
  {
    if n >= 10 {
      ShowNatValue(n / 10);
      var s := ShowNat(n);
      assert s[..|s| - 1] == ShowNat(n / 10);
    }
  }

  /** `int(str(n)) == n` for every integer. */
  lemma ParseIntShow(n: int)
    ensures ParseInt(Show(n)) == Ok(n)
  {
    var s := Show(n);
    if n < 0 {
      ShowNatValue(-n);
      assert s[1..] == ShowNat(-n);
    } else {
      ShowNatValue(n);
    }
    assert TrimStart(s, IntSpace) == s;
    assert TrimEnd(s, IntSpace) == s;
  }

  // ---------------------------------------------------------------------
  // The value `int()` gives an accepted literal: a sign, leading zeros and
  // underscores change it as Python says, and a plain digit string is read
  // as the number it prints.

  /** A literal with no whitespace around it is read as it stands. */
  lemma TrimBare(t: string)
    requires |t| > 0 && !IntSpace(t[0]) && !IntSpace(t[|t| - 1])
    ensures TrimEnd(TrimStart(t, IntSpace), IntSpace) == t
  {
  }

  /** `int()` reads a piece as it reads the piece with its surrounding
      whitespace removed: it accepts both or neither, with the same value. */
  lemma ParseIntTrimmed(piece: string)
    ensures var t := TrimEnd(TrimStart(piece, IntSpace), IntSpace);
      (ParseInt(piece).Ok? <==> ParseInt(t).Ok?) &&
      (ParseInt(piece).Ok? ==> ParseInt(piece) == ParseInt(t))
  {
    TrimTwice(piece);
  }

  /** Removing `int()`'s whitespace a second time changes nothing. */
  lemma TrimTwice(piece: string)
    ensures var t := TrimEnd(TrimStart(piece, IntSpace), IntSpace);
      TrimEnd(TrimStart(t, IntSpace), IntSpace) == t
  {
    var u := TrimStart(piece, IntSpace);
    var t := TrimEnd(u, IntSpace);
    if t != [] {
      assert t[0] == u[0];
      TrimBare(t);
    }
  }

  /** `int("+" + g) == int(g)` and `int("-" + g) == -int(g)`. */
  lemma ParseIntSigns(g: string)
    requires IsDigitGroup(g)
    ensures ParseInt(g).Ok?
    ensures ParseInt("+" + g) == ParseInt(g)
    ensures ParseInt("-" + g) == Ok(-ParseInt(g).value)
  {
    TrimBare(g);
    TrimBare("+" + g);
    TrimBare("-" + g);
    assert ("+" + g)[1..] == g && ("-" + g)[1..] == g;
    assert !IsDigitGroup("+" + g) && !IsDigitGroup("-" + g);
  }

  lemma {:induction false} DigitsValueLeadingZero(g: string)
    ensures DigitsValue("0" + g) == DigitsValue(g)
  {
    if g == [] {
      assert "0" + g == "0";
      assert "0"[..0] == [];
    } else {
      var z := "0" + g;
      assert z[..|z| - 1] == "0" + g[..|g| - 1];
      DigitsValueLeadingZero(g[..|g| - 1]);
    }
  }

  /** Leading zeros do not change the value: `int("0" + g) == int(g)`. */
  lemma ParseIntLeadingZero(g: string)
    requires IsDigitGroup(g)
    ensures ParseInt(g).Ok?
    ensures ParseInt("0" + g) == ParseInt(g)
  {
    var z := "0" + g;
    forall i | 0 <= i < |z|
      ensures IsDigit(z[i]) || (z[i] == '_' && i + 1 < |z| && IsDigit(z[i + 1]))
    {
      if i > 0 {
        assert z[i] == g[i - 1];
        if i + 1 < |z| { assert z[i + 1] == g[i]; }
      }
    }
    assert z[|z| - 1] == g[|g| - 1];
    TrimBare(g);
    TrimBare(z);
    DigitsValueLeadingZero(g);
  }

  lemma {:induction false} DigitsValueUnderscore(a: string, b: string)
    ensures DigitsValue(a + "_" + b) == DigitsValue(a + b)
  {
    if b == [] {
      assert a + "_" + b == a + "_" && (a + "_")[..|a|] == a;
      assert a + b == a;
    } else {
      var b' := b[..|b| - 1];
      assert (a + "_" + b)[..|a| + |b|] == a + "_" + b';
      assert (a + b)[..|a| + |b| - 1] == a + b';
      DigitsValueUnderscore(a, b');
    }
  }

  lemma DigitGroupsJoined(a: string, b: string)
    requires IsDigitGroup(a) && IsDigitGroup(b)
    ensures IsDigitGroup(a + b) && IsDigitGroup(a + "_" + b)
  {
    var ab, aub := a + b, a + "_" + b;
    forall i | 0 <= i < |ab|
      ensures IsDigit(ab[i]) || (ab[i] == '_' && i + 1 < |ab| && IsDigit(ab[i + 1]))
    {
      if i < |a| {
        assert ab[i] == a[i];
        if i + 1 < |a| { assert ab[i + 1] == a[i + 1]; }
      } else {
        assert ab[i] == b[i - |a|];
        if i + 1 < |ab| { assert ab[i + 1] == b[i + 1 - |a|]; }
      }
    }
    forall i | 0 <= i < |aub|
      ensures IsDigit(aub[i]) || (aub[i] == '_' && i + 1 < |aub| && IsDigit(aub[i + 1]))
    {
      if i < |a| {
        assert aub[i] == a[i];
        if i + 1 < |a| { assert aub[i + 1] == a[i + 1]; }
      } else if i == |a| {
        assert aub[i + 1] == b[0];
      } else {
        assert aub[i] == b[i - |a| - 1];
        if i + 1 < |aub| { assert aub[i + 1] == b[i - |a|]; }
      }
    }
  }

  /** An underscore between two digit groups is ignored:
      `int(a + "_" + b) == int(a + b)`. */
  lemma ParseIntUnderscore(a: string, b: string)
    requires IsDigitGroup(a) && IsDigitGroup(b)
    ensures ParseInt(a + b).Ok?
    ensures ParseInt(a + "_" + b) == ParseInt(a + b)
  {
    DigitGroupsJoined(a, b);
    TrimBare(a + b);
    TrimBare(a + "_" + b);
    DigitsValueUnderscore(a, b);
  }

  lemma {:induction false} DigitsPositive(g: string)
    requires |g| > 0 && g[0] != '0'
    requires forall i :: 0 <= i < |g| ==> IsDigit(g[i])
    ensures DigitsValue(g) >= 1
  {
    if |g| > 1 {
      DigitsPositive(g[..|g| - 1]);
    }
  }

  lemma {:induction false} DigitsShown(g: string)
    requires |g| > 0 && (g[0] != '0' || |g| == 1)
    requires forall i :: 0 <= i < |g| ==> IsDigit(g[i])
    ensures ShowNat(DigitsValue(g)) == g
  {
    var n := DigitsValue(g);
    var c := g[|g| - 1];
    assert IsDigit(c);
    if |g| == 1 {
      assert g[..0] == [];
      assert n == 10 * DigitsValue(g[..0]) + (c as int - '0' as int);
      assert DigitChar(n) == c;
    } else {
      var g' := g[..|g| - 1];
      DigitsShown(g');
      DigitsPositive(g');
      assert n == 10 * DigitsValue(g') + (c as int - '0' as int);
      assert DigitChar(n % 10) == c;
      assert g == g' + [c];
    }
  }

  /** A digit string without underscores or a leading zero is what `str`
      prints for the number `int()` reads from it. */
  lemma ParseIntCanonical(g: string)
    requires |g| > 0 && (g[0] != '0' || |g| == 1)
    requires forall i :: 0 <= i < |g| ==> IsDigit(g[i])
    ensures ShowNat(DigitsValue(g)) == g
    ensures ParseInt(g) == Ok(DigitsValue(g))
  {
    var n := DigitsValue(g);
    DigitsShown(g);
    assert Show(n) == g;
    ParseIntShow(n);
  }

  /** `int()` reads a printed number back whatever whitespace of its own
      surrounds it. */
  lemma ParseIntPadded(before: string, n: int, after: string)
    requires AllOf(before, IntSpace) && AllOf(after, IntSpace)
    ensures ParseInt(before + Show(n) + after) == Ok(n)
  {
    var s := Show(n);
    ParseIntShow(n);
    TrimAround(before, s, after, IntSpace);
  }

  /** The fields of a list of numbers written with whitespace around them:
      number `i` stands between `before[i]` and `after[i]`. */
  function PaddedFields(xs: seq<int>, before: seq<string>, after: seq<string>): (r: seq<string>)
    requires |before| == |xs| == |after|
    ensures |r| == |xs|
  {
    seq(|xs|, i requires 0 <= i < |xs| => before[i] + Show(xs[i]) + after[i])
  }

  /** A non-empty list written with any whitespace, any amount of it, on
      either side of every comma parses back to the list; so does one with
      whitespace that `int()` skips before the first number and after the
      last. */
  lemma ParsePadded(xs: seq<int>, before: seq<string>, after: seq<string>)
    requires |xs| > 0 && |before| == |xs| == |after|
    requires forall i :: 0 <= i < |xs| ==> AllOf(before[i], IsSpace) && AllOf(after[i], IsSpace)
    requires AllOf(before[0], IntSpace) && AllOf(after[|xs| - 1], IntSpace)
    ensures ParseLayerList(Join(PaddedFields(xs, before, after))) == Ok(xs)
  {
    var fields := PaddedFields(xs, before, after);
    PaddedFieldsNoComma(xs, before, after);
    var pieces := SplitLayers(Join(fields));
    SplitJoined(fields, 0);
    forall i | 0 <= i < |xs|
      ensures ParseInt(pieces[i]) == Ok(xs[i])
    {
      ParsePaddedAt(xs, before, after, i);
    }
    ParseAllOk(pieces, xs);
  }

  /** Pieces that each parse to the matching number parse to the list. */
  lemma ParseAllOk(pieces: seq<string>, xs: seq<int>)
    requires |pieces| == |xs|
    requires forall i :: 0 <= i < |xs| ==> ParseInt(pieces[i]) == Ok(xs[i])
    ensures ParseAll(pieces) == Ok(xs)
  {
    var r := ParseAll(pieces);
    assert r.value == xs;
  }

  lemma PaddedFieldsNoComma(xs: seq<int>, before: seq<string>, after: seq<string>)
    requires |before| == |xs| == |after|
    requires forall i :: 0 <= i < |xs| ==> AllOf(before[i], IsSpace) && AllOf(after[i], IsSpace)
    ensures forall i :: 0 <= i < |xs| ==> ',' !in PaddedFields(xs, before, after)[i]
  {
    forall i | 0 <= i < |xs|
      ensures ',' !in PaddedFields(xs, before, after)[i]
    {
      assert !IsSpace(',');
      assert ',' !in before[i] && ',' !in after[i];
    }
  }

  lemma ParsePaddedAt(xs: seq<int>, before: seq<string>, after: seq<string>, i: nat)
    requires i < |xs| && |before| == |xs| == |after|
    requires forall j :: 0 <= j < |xs| ==> ',' !in PaddedFields(xs, before, after)[j]
    requires AllOf(before[i], IsSpace) && AllOf(after[i], IsSpace)
    requires i == 0 ==> AllOf(before[i], IntSpace)
    requires i == |xs| - 1 ==> AllOf(after[i], IntSpace)
    ensures |SplitLayers(Join(PaddedFields(xs, before, after)))| == |xs|
    ensures ParseInt(SplitLayers(Join(PaddedFields(xs, before, after)))[i]) == Ok(xs[i])
  {
    var fields := PaddedFields(xs, before, after);
    SplitJoined(fields, i);
    assert fields[i] == before[i] + Show(xs[i]) + after[i];
    ParsePaddedPiece(before[i], xs[i], after[i], i == 0, i == |xs| - 1);
  }

  lemma ParsePaddedPiece(before: string, n: int, after: string, first: bool, last: bool)
    requires AllOf(before, IsSpace) && AllOf(after, IsSpace)
    requires first ==> AllOf(before, IntSpace)
    requires last ==> AllOf(after, IntSpace)
    ensures ParseInt(Unpad(before + Show(n) + after, first, last)) == Ok(n)
  {
    UnpadSpaces(before, Show(n), after, first, last);
    ParseIntPadded(if first then before else "", n, if last then after else "");
  }

  /** Formatting a non-empty list and parsing it back gives the list: the
      parser accepts every list it can print, and reads it correctly. */
  lemma ParseFormat(xs: seq<int>)
    requires |xs| > 0
    ensures ParseLayerList(Format(xs)) == Ok(xs)
  {
    var before := seq(|xs|, i => if i == 0 then "" else " ");
    var after := seq(|xs|, i => "");
    forall i | 0 <= i < |xs|
      ensures FormatFields(xs)[i] == PaddedFields(xs, before, after)[i]
    {
      assert before[i] + Show(xs[i]) + after[i] == before[i] + Show(xs[i]);
    }
    assert FormatFields(xs) == PaddedFields(xs, before, after);
    assert AllOf(" ", IsSpace);
    ParsePadded(xs, before, after);
  }

  /** The node's default for `skip_mmdit_layers`: "10" is [10]. */
  lemma DefaultMmditLayers()
    ensures ParseLayerList("10") == Ok([10])
  {
    assert Show(10) == "10" by {
      assert DigitChar(1) == '1' && DigitChar(0) == '0';
      assert ShowNat(10) == ShowNat(1) + [DigitChar(0)];
    }
    var fields := FormatFields([10]);
    assert fields[0] == "" + Show(10) == "10";
    assert fields == ["10"];
    assert Format([10]) == "10";
    ParseFormat([10]);
  }

  /** The node's default for `skip_dit_layers`: "3, 4" is [3, 4]. */
  lemma DefaultDitLayers()
    ensures ParseLayerList("3, 4") == Ok([3, 4])
  {
    assert Show(3) == "3" && Show(4) == "4" by {
      assert DigitChar(3) == '3' && DigitChar(4) == '4';
    }
    var fields := FormatFields([3, 4]);
    assert fields[0] == "" + Show(3) == "3";
    assert fields[1] == " " + Show(4) == " 4";
    assert fields == ["3", " 4"];
    assert Join(fields) == "3" + "," + " 4" == "3, 4";
    ParseFormat([3, 4]);
  }

  /** The pieces `re.split` yields for comma-free fields joined with commas. */
  lemma SplitJoined(fields: seq<string>, i: nat)
    requires |fields| > 0 && i < |fields|
    requires forall j :: 0 <= j < |fields| ==> ',' !in fields[j]
    ensures |SplitLayers(Join(fields))| == |fields|
    ensures SplitLayers(Join(fields))[i] == Unpad(fields[i], i == 0, i == |fields| - 1)
  {
    FieldsOfJoin(fields);
  }

  /** A non-numeric field is rejected: "a,b" raises for "a". */
  lemma RejectsNonNumeric()
    ensures ParseLayerList("a,b") == Err(ValueError("a"))
  {
    var fields := ["a", "b"];
    assert Join(fields) == "a,b" by {
      assert Join(fields[1..]) == "b";
    }
    SplitJoined(fields, 0);
    assert !IsSpace('a');
    assert TrimEnd("a", IsSpace) == "a";
    var p := SplitLayers("a,b");
    assert p[0] == "a";
    assert ParseInt("a").Err? by {
      assert !IntSpace('a');
      assert TrimStart("a", IntSpace) == "a";
      assert TrimEnd("a", IntSpace) == "a";
      assert !IsDigitGroup("a");
    }
    ParseAllFirstError(p, 0);
  }

  /** `int("")` raises. */
  lemma ParseIntEmpty()
    ensures ParseInt("") == Err(ValueError(""))
  {
    assert TrimStart("", IntSpace) == "";
    assert TrimEnd("", IntSpace) == "";
  }

  /** "1,,2" is the fields "1", "" and "2" joined with commas. */
  lemma JoinOneEmptyTwo()
    ensures Join(["1", "", "2"]) == "1,,2"
  {
    var fields := ["1", "", "2"];
    assert Join(fields[1..][1..]) == "2";
    assert Join(fields[1..]) == ",2";
  }

  /** The first two pieces `re.split` makes of "1,,2". */
  lemma PiecesOfOneEmptyTwo()
    ensures |SplitLayers("1,,2")| == 3
    ensures SplitLayers("1,,2")[0] == "1" && SplitLayers("1,,2")[1] == ""
  {
    assert Unpad("", false, false) == "" by {
      assert TrimStart("", IsSpace) == "";
      assert TrimEnd("", IsSpace) == "";
    }
    assert Unpad("1", true, false) == "1" by {
      assert !IsSpace('1');
      assert TrimEnd("1", IsSpace) == "1";
    }
    var fields := ["1", "", "2"];
    JoinOneEmptyTwo();
    SplitJoined(fields, 0);
    SplitJoined(fields, 1);
  }

  /** An empty field is rejected: "1,,2" raises for the empty middle field. */
  lemma RejectsEmptyField()
    ensures ParseLayerList("1,,2") == Err(ValueError(""))
  {
    PiecesOfOneEmptyTwo();
    var p := SplitLayers("1,,2");
    ParseIntOne();
    ParseIntEmpty();
    assert ParseInt(p[0]).Ok? && ParseInt(p[1]).Err?;
    ParseAllFirstError(p, 1);
  }

  /** `int("1")` is 1. */
  lemma ParseIntOne()
    ensures ParseInt("1") == Ok(1)
  {
    assert Show(1) == "1" by {
      assert DigitChar(1) == '1';
    }
    ParseIntShow(1);
  }

  /** The empty string is one empty field, which `int()` rejects: no input
      yields an empty list. */
  lemma RejectsEmptyString()
    ensures ParseLayerList("") == Err(ValueError(""))
  {
    assert Fields("") == [""];
    var p := SplitLayers("");
    assert p == [""];
    ParseIntEmpty();
    ParseAllFirstError(p, 0);
  }
}
