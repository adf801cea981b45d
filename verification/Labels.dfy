/** Path labels for model prompts: plain paths as they are, all others as "json:" and a JSON string
    of ASCII characters. The decoder follows section 7 of RFC 8259. */
module Labels {
  import opened Model

  /** A Python code point; surrogates are possible. */
  type CodePoint = c: int | 0 <= c <= 0x10FFFF witness 0
  type Path = seq<CodePoint>

  predicate High(c: int) { 0xD800 <= c <= 0xDBFF }
  predicate Low(c: int) { 0xDC00 <= c <= 0xDFFF }

  /** What os.fsdecode can return: scalar values, and U+DC80..U+DCFF for undecodable bytes. */
  predicate FsDecoded(p: Path) {
    forall i :: 0 <= i < |p| ==> !(0xD800 <= p[i] < 0xDC80) && !(0xDCFF < p[i] <= 0xDFFF)
  }

  // ---- _display_path -------------------------------------------------------------------

  predicate PlainChar(c: int) {
    || 'A' as int <= c <= 'Z' as int || 'a' as int <= c <= 'z' as int || '0' as int <= c <= '9' as int
    || c == '.' as int || c == '_' as int || c == '/' as int || c == '@' as int || c == '+' as int || c == '-' as int
  }

  /** The pattern of a plain path: safe characters, with spaces only inside. */
  predicate Plain(p: Path) {
    && p != [] && PlainChar(p[0]) && PlainChar(p[|p| - 1])
    && forall i :: 0 <= i < |p| ==> PlainChar(p[i]) || p[i] == ' ' as int
  }

  function Ascii(c: int): char
    requires 0 <= c <= 0x7E
  {
    c as char
  }

  function Chars(p: Path): string
    requires forall i :: 0 <= i < |p| ==> p[i] <= 0x7E
  {
    if p == [] then "" else [Ascii(p[0])] + Chars(p[1..])
  }

  function HexDigit(n: int): char
    requires 0 <= n < 16
  {
    if n < 10 then ('0' as int + n) as char else ('a' as int + n - 10) as char
  }

  function U4(n: int): string
    requires 0 <= n < 0x10000
  {
    ['\\', 'u', HexDigit(n / 4096), HexDigit(n / 256 % 16), HexDigit(n / 16 % 16), HexDigit(n % 16)]
  }

  function HighOf(c: CodePoint): int
    requires c >= 0x10000
  {
    0xD800 + (c - 0x10000) / 0x400
  }

  function LowOf(c: CodePoint): int
    requires c >= 0x10000
  {
    0xDC00 + (c - 0x10000) % 0x400
  }

  /** One character of json.dumps(..., ensure_ascii=True). */
  function Escape(c: CodePoint): string {
    if c == 0x22 then "\\\""
    else if c == 0x5C then "\\\\"
    else if c == 0x0A then "\\n"
    else if c == 0x0D then "\\r"
    else if c == 0x09 then "\\t"
    else if c == 0x0C then "\\f"
    else if c == 0x08 then "\\b"
    else if 0x20 <= c <= 0x7E then [Ascii(c)]
    else if c < 0x10000 then U4(c)
    else U4(HighOf(c)) + U4(LowOf(c))
  }

  /** The escaped characters and the closing quote. */
  function Body(p: Path): string {
    if p == [] then "\"" else Escape(p[0]) + Body(p[1..])
  }

  const PREFIX := "json:"

  function Display(p: Path): string {
    if Plain(p) && !(PREFIX <= Chars(p)) then Chars(p) else PREFIX + "\"" + Body(p)
  }

  // ---- the decoder ---------------------------------------------------------------------

  function HexValue(c: char): Option<int> {
    if '0' <= c <= '9' then Some(c as int - '0' as int)
    else if 'a' <= c <= 'f' then Some(c as int - 'a' as int + 10)
    else if 'A' <= c <= 'F' then Some(c as int - 'A' as int + 10)
    else None
  }

  function Hex4(s: string): (n: Option<int>)
    requires |s| == 4
    ensures n.Some? ==> 0 <= n.value < 0x10000
  {
    var a, b, c, d := HexValue(s[0]), HexValue(s[1]), HexValue(s[2]), HexValue(s[3]);
    if a.Some? && b.Some? && c.Some? && d.Some?
    then Some(a.value * 4096 + b.value * 256 + c.value * 16 + d.value) else None
  }

  /** The character or escape at the front of a JSON string, and how long it is. */
  function Unit(s: string): (u: Option<(CodePoint, nat)>)
    ensures u.Some? ==> 1 <= u.value.1 <= |s|
  {
    if s == "" || s[0] == '\"' || s[0] < ' ' then None
    else if s[0] != '\\' then Some((s[0] as int, 1))
    else if |s| < 2 then None
    else match s[1]
      case '\"' => Some((0x22, 2))
      case '\\' => Some((0x5C, 2))
      case '/' => Some((0x2F, 2))
      case 'n' => Some((0x0A, 2))
      case 'r' => Some((0x0D, 2))
      case 't' => Some((0x09, 2))
      case 'f' => Some((0x0C, 2))
      case 'b' => Some((0x08, 2))
      case 'u' =>
        if |s| < 6 then None else
        var n := Hex4(s[2..6]);
        if n.Some? then Some((n.value, 6)) else None
      case _ => None
  }

  function Combine(hi: int, lo: int): CodePoint
    requires High(hi) && Low(lo)
  {
    0x10000 + (hi - 0xD800) * 0x400 + (lo - 0xDC00)
  }

  /** A JSON string without its opening quote; a surrogate pair of escapes is one character. */
  function Decode(s: string): Option<Path>
    decreases |s|
  {
    if s == "\"" then Some([])
    else
      var u := Unit(s);
      if u.None? then None
      else
        var (c, n) := u.value;
        var v := Unit(s[n..]);
        if High(c) && v.Some? && Low(v.value.0) then
          var rest := Decode(s[n + v.value.1..]);
          if rest.None? then None else Some([Combine(c, v.value.0)] + rest.value)
        else
          var rest := Decode(s[n..]);
          if rest.None? then None else Some([c] + rest.value)
  }

  function Codes(s: string): Path {
    if s == "" then [] else [s[0] as int] + Codes(s[1..])
  }

  /** Reads a label back. */
  function Undo(shown: string): Option<Path> {
    if PREFIX <= shown then
      if |shown| > |PREFIX| && shown[|PREFIX|] == '\"' then Decode(shown[|PREFIX| + 1..]) else None
    else Some(Codes(shown))
  }

  // ---- what a label says about its path ------------------------------------------------

  /** Joins every high surrogate with the low one right after it. */
  function Merge(p: Path): (q: Path)
    ensures |q| <= |p|
  {
    if |p| >= 2 && High(p[0]) && Low(p[1]) then [Combine(p[0], p[1])] + Merge(p[2..])
    else if p == [] then []
    else [p[0]] + Merge(p[1..])
  }

  predicate HasPair(p: Path) {
    exists i :: 0 <= i < |p| - 1 && High(p[i]) && Low(p[i + 1])
  }

  lemma {:induction false} MergeKeeps(p: Path)
    ensures HasPair(p) ==> |Merge(p)| < |p|
    ensures !HasPair(p) ==> Merge(p) == p
  {
    if p != [] && !(|p| >= 2 && High(p[0]) && Low(p[1])) {
      MergeKeeps(p[1..]);
      if HasPair(p) {
        var i :| 0 <= i < |p| - 1 && High(p[i]) && Low(p[i + 1]);
        assert p[1..][i - 1] == p[i] && p[1..][i] == p[i + 1];
      } else {
        forall i | 0 <= i < |p[1..]| - 1 ensures !(High(p[1..][i]) && Low(p[1..][i + 1])) {
          assert !(High(p[i + 1]) && Low(p[i + 2]));
        }
      }
    }
  }

  lemma HexDigitValue(n: int)
    requires 0 <= n < 16
    ensures HexValue(HexDigit(n)) == Some(n)
  {
  }

  lemma FourDigits(n: int)
    requires 0 <= n < 0x10000
    ensures n / 4096 < 16
    ensures n / 4096 * 4096 + n / 256 % 16 * 256 + n / 16 % 16 * 16 + n % 16 == n
  {
    var q1, q2 := n / 16, n / 256;
    assert n == q1 * 16 + n % 16;
    assert q1 == q2 * 16 + q1 % 16;
    assert q2 == n / 4096 * 16 + q2 % 16;
  }

  lemma Hex4OfU4(n: int)
    requires 0 <= n < 0x10000
    ensures Hex4(U4(n)[2..6]) == Some(n)
  {
    FourDigits(n);
    var a, b, c, d := n / 4096, n / 256 % 16, n / 16 % 16, n % 16;
    HexDigitValue(a);
    HexDigitValue(b);
    HexDigitValue(c);
    HexDigitValue(d);
    assert U4(n)[2..6] == [HexDigit(a), HexDigit(b), HexDigit(c), HexDigit(d)];
  }

  lemma UnitOfU4(n: int, rest: string)
    requires 0 <= n < 0x10000
    ensures Unit(U4(n) + rest) == Some((n, 6)) && (U4(n) + rest)[6..] == rest
  {
    Hex4OfU4(n);
    assert (U4(n) + rest)[2..6] == U4(n)[2..6];
  }

  lemma UnitOfEscape(c: CodePoint, rest: string)
    requires c < 0x10000
    ensures Unit(Escape(c) + rest) == Some((c, |Escape(c)|)) && (Escape(c) + rest)[|Escape(c)|..] == rest
  {
    if c < 0x20 || c > 0x7E { UnitOfU4(c, rest); }
  }

  /** What comes after a character decides whether it is joined. */
  lemma UnitOfBody(p: Path)
    ensures p == [] ==> Unit(Body(p)).None?
    ensures p != [] ==> Unit(Body(p)).Some?
    ensures p != [] ==> Unit(Body(p)).value.0 == if p[0] < 0x10000 then p[0] else HighOf(p[0])
  {
    if p != [] {
      if p[0] < 0x10000 {
        UnitOfEscape(p[0], Body(p[1..]));
      } else {
        assert Body(p) == U4(HighOf(p[0])) + (U4(LowOf(p[0])) + Body(p[1..]));
        UnitOfU4(HighOf(p[0]), U4(LowOf(p[0])) + Body(p[1..]));
      }
    }
  }

  lemma {:induction false} DecodeBody(p: Path)
    ensures Decode(Body(p)) == Some(Merge(p))
  {
    if p != [] {
      var c := p[0];
      if c >= 0x10000 {
        DecodeSupplementary(p);
        DecodeBody(p[1..]);
      } else {
        UnitOfEscape(c, Body(p[1..]));
        UnitOfBody(p[1..]);
        if |p| >= 2 && High(c) && Low(p[1]) {
          UnitOfEscape(p[1], Body(p[2..]));
          assert p[1..][1..] == p[2..];
          assert Body(p)[|Escape(c)| + |Escape(p[1])|..] == Body(p[1..])[|Escape(p[1])|..];
          DecodeBody(p[2..]);
        } else {
          DecodeBody(p[1..]);
        }
      }
    }
  }

  lemma DecodeSupplementary(p: Path)
    requires p != [] && p[0] >= 0x10000
    ensures Decode(Body(p)) == (var rest := Decode(Body(p[1..])); if rest.None? then None else Some([p[0]] + rest.value))
  {
    var hi, lo, rest := HighOf(p[0]), LowOf(p[0]), Body(p[1..]);
    assert Body(p) == U4(hi) + (U4(lo) + rest);
    UnitOfU4(hi, U4(lo) + rest);
    UnitOfU4(lo, rest);
    assert Body(p)[12..] == Body(p)[6..][6..] == rest;
    assert Combine(hi, lo) == p[0];
  }

  lemma {:induction false} CodesOfChars(p: Path)
    requires forall i :: 0 <= i < |p| ==> p[i] <= 0x7E
    ensures Codes(Chars(p)) == p && |Chars(p)| == |p|
    ensures forall i :: 0 <= i < |p| ==> Chars(p)[i] as int == p[i]
  {
    if p != [] { CodesOfChars(p[1..]); }
  }

  /** A plain path has no colon, so it is never taken for an encoded one. */
  lemma PlainIsShownAsItIs(p: Path)
    requires Plain(p)
    ensures Display(p) == Chars(p) && !(PREFIX <= Chars(p)) && !HasPair(p)
  {
    CodesOfChars(p);
    assert PREFIX[4] == ':';
    assert |p| > 4 ==> PlainChar(p[4]) || p[4] == ' ' as int;
  }

  /** Decoding a label gives the path with its surrogate pairs joined. */
  lemma UndoDisplay(p: Path)
    ensures Undo(Display(p)) == Some(Merge(p))
  {
    if Plain(p) {
      PlainIsShownAsItIs(p);
      CodesOfChars(p);
      MergeKeeps(p);
    } else {
      var shown := PREFIX + "\"" + Body(p);
      assert shown[..5] == PREFIX && shown[6..] == Body(p);
      DecodeBody(p);
    }
  }

  /** The label can be read back exactly when no high surrogate is directly followed by a low one. */
  lemma RoundTrip(p: Path)
    ensures Undo(Display(p)) == Some(p) <==> !HasPair(p)
  {
    UndoDisplay(p);
    MergeKeeps(p);
  }

  // ---- injectivity ---------------------------------------------------------------------

  lemma PairShownAlike(hi: CodePoint, lo: CodePoint)
    requires High(hi) && Low(lo)
    ensures Escape(Combine(hi, lo)) == Escape(hi) + Escape(lo)
  {
    var c := Combine(hi, lo);
    assert HighOf(c) == hi && LowOf(c) == lo;
  }

  lemma BodyOfCons(c: CodePoint, q: Path)
    ensures Body([c] + q) == Escape(c) + Body(q)
  {
    assert ([c] + q)[1..] == q;
  }

  lemma {:induction false} MergedShownAlike(p: Path)
    ensures Body(Merge(p)) == Body(p)
  {
    if |p| >= 2 && High(p[0]) && Low(p[1]) {
      var q := p[2..];
      MergedShownAlike(q);
      BodyOfCons(Combine(p[0], p[1]), Merge(q));
      PairShownAlike(p[0], p[1]);
      BodyOfCons(p[1], q);
      BodyOfCons(p[0], [p[1]] + q);
      assert p == [p[0]] + ([p[1]] + q);
    } else if p != [] {
      MergedShownAlike(p[1..]);
      BodyOfCons(p[0], Merge(p[1..]));
    }
  }

  lemma MergedPlain(p: Path)
    requires Plain(Merge(p))
    ensures Merge(p) == p
  {
    MergeKeeps(p);
    if HasPair(p) {
      MergeMakesSupplementary(p);
      assert false;
    }
  }

  lemma {:induction false} MergeMakesSupplementary(p: Path)
    requires HasPair(p)
    ensures exists i :: 0 <= i < |Merge(p)| && Merge(p)[i] >= 0x10000
  {
    if |p| >= 2 && High(p[0]) && Low(p[1]) {
      assert Merge(p)[0] >= 0x10000;
    } else {
      var i :| 0 <= i < |p| - 1 && High(p[i]) && Low(p[i + 1]);
      assert p[1..][i - 1] == p[i] && p[1..][i] == p[i + 1];
      MergeMakesSupplementary(p[1..]);
      var k :| 0 <= k < |Merge(p[1..])| && Merge(p[1..])[k] >= 0x10000;
      assert Merge(p)[k + 1] == Merge(p[1..])[k];
    }
  }

  /** Exactly when two paths share a label. */
  lemma SameLabel(p: Path, q: Path)
    ensures Display(p) == Display(q) <==> Merge(p) == Merge(q)
  {
    UndoDisplay(p);
    UndoDisplay(q);
    if Merge(p) == Merge(q) {
      MergedShownAlike(p);
      MergedShownAlike(q);
      if Plain(p) { PlainAlike(p, q); } else if Plain(q) { PlainAlike(q, p); }
    }
  }

  lemma PlainAlike(p: Path, q: Path)
    requires Merge(p) == Merge(q) && Plain(p)
    ensures p == q
  {
    PlainIsShownAsItIs(p);
    MergeKeeps(p);
    MergedPlain(q);
  }

  /** Over everything os.fsdecode returns, distinct paths have distinct labels. */
  lemma InjectiveOnFsDecoded(p: Path, q: Path)
    requires FsDecoded(p) && FsDecoded(q)
    ensures Display(p) == Display(q) ==> p == q
    ensures Undo(Display(p)) == Some(p)
  {
    RoundTrip(p);
    RoundTrip(q);
  }

  /** Over all strings it is not: the pair D83D DE00 and the character U+1F600 share a label. */
  lemma NotInjectiveWithPairs()
    ensures Display([0xD83D, 0xDE00]) == Display([0x1F600])
  {
    var p: Path, q: Path := [0xD83D, 0xDE00], [0x1F600];
    assert p[2..] == [] && q[1..] == [];
    assert Merge(p) == [0x1F600] && Merge(q) == [0x1F600];
    SameLabel(p, q);
  }

  // ---- one line ------------------------------------------------------------------------

  predicate Printable(s: string) {
    forall i :: 0 <= i < |s| ==> ' ' <= s[i] <= '~'
  }

  lemma {:induction false} BodyPrintable(p: Path)
    ensures Printable(Body(p))
  {
    if p != [] {
      BodyPrintable(p[1..]);
      EscapePrintable(p[0]);
    }
  }

  lemma EscapePrintable(c: CodePoint)
    ensures Printable(Escape(c))
  {
  }

  lemma PlainPrintable(p: Path)
    requires Plain(p)
    ensures Printable(Chars(p)) && Chars(p) != ""
  {
    CodesOfChars(p);
    forall i | 0 <= i < |Chars(p)| ensures ' ' <= Chars(p)[i] <= '~' {
      assert PlainChar(p[i]) || p[i] == ' ' as int;
    }
  }

  /** A label is one line of printable ASCII and never empty. */
  lemma SingleLine(p: Path)
    ensures Printable(Display(p)) && Display(p) != ""
  {
    if Plain(p) {
      PlainIsShownAsItIs(p);
      PlainPrintable(p);
    } else {
      BodyPrintable(p);
      assert Printable(PREFIX + "\"");
    }
  }
}
