/** Byte-bounded review shards: the greedy splitter, the shard headers and the size guards. */
module ReviewSource {
  import opened Model

  // ---- text ----------------------------------------------------------------------------

  /** Length of the UTF-8 form of a character (section 3 of RFC 3629). */
  function Size(c: char): nat {
    var n := c as int;
    if n < 0x80 then 1 else if n < 0x800 then 2 else if n < 0x10000 then 3 else 4
  }

  function Bytes(s: string): nat
    decreases |s|
  {
    if s == "" then 0 else Bytes(s[..|s| - 1]) + Size(s[|s| - 1])
  }

  function Concat(pieces: seq<string>): string
    decreases |pieces|
  {
    if pieces == [] then "" else Concat(pieces[..|pieces| - 1]) + pieces[|pieces| - 1]
  }

  lemma ConcatSnoc(pieces: seq<string>, piece: string)
    ensures Concat(pieces + [piece]) == Concat(pieces) + piece
  {
    assert (pieces + [piece])[..|pieces|] == pieces;
  }

  lemma BytesSnoc(s: string, c: char)
    ensures Bytes(s + [c]) == Bytes(s) + Size(c)
  {
    assert (s + [c])[..|s|] == s;
  }

  lemma {:induction false} BytesAdd(s: string, t: string)
    ensures Bytes(s + t) == Bytes(s) + Bytes(t)
    decreases |t|
  {
    if t == "" {
      assert s + t == s;
    } else {
      var t0, c := t[..|t| - 1], t[|t| - 1];
      assert s + t == (s + t0) + [c];
      BytesSnoc(s + t0, c);
      BytesAdd(s, t0);
    }
  }

  lemma {:induction false} AsciiBytes(s: string)
    requires forall i :: 0 <= i < |s| ==> s[i] as int < 0x80
    ensures Bytes(s) == |s|
    decreases |s|
  {
    if s != "" { AsciiBytes(s[..|s| - 1]); }
  }

  // ---- str.splitlines(keepends=True) ---------------------------------------------------

  predicate Break(c: char) {
    var n := c as int;
    0x0A <= n <= 0x0D || 0x1C <= n <= 0x1E || n == 0x85 || n == 0x2028 || n == 0x2029
  }

  /** The length of the first line with its boundary; CR LF is one boundary. */
  function LineLen(s: string): (n: nat)
    requires s != ""
    ensures 1 <= n <= |s|
  {
    if Break(s[0]) then (if |s| > 1 && s[0] == '\r' && s[1] == '\n' then 2 else 1)
    else if |s| == 1 then 1
    else 1 + LineLen(s[1..])
  }

  function Lines(s: string): seq<string>
    decreases |s|
  {
    if s == "" then [] else [s[..LineLen(s)]] + Lines(s[LineLen(s)..])
  }

  lemma {:induction false} ConcatCons(piece: string, pieces: seq<string>)
    ensures Concat([piece] + pieces) == piece + Concat(pieces)
    decreases |pieces|
  {
    if pieces == [] {
      assert [piece] + pieces == [] + [piece];
      ConcatSnoc([], piece);
    } else {
      var init, last := pieces[..|pieces| - 1], pieces[|pieces| - 1];
      assert [piece] + pieces == ([piece] + init) + [last];
      ConcatSnoc([piece] + init, last);
      ConcatCons(piece, init);
      assert Concat(pieces) == Concat(init) + last;
      Reassociate(piece, Concat(init), last);
    }
  }

  lemma {:induction false} LinesConcat(s: string)
    ensures Concat(Lines(s)) == s
    decreases |s|
  {
    if s != "" {
      var n := LineLen(s);
      LinesConcat(s[n..]);
      ConcatCons(s[..n], Lines(s[n..]));
      assert s == s[..n] + s[n..];
    }
  }

  lemma {:induction false} LinesNonEmpty(s: string)
    ensures forall i :: 0 <= i < |Lines(s)| ==> Lines(s)[i] != ""
    decreases |s|
  {
    if s != "" { LinesNonEmpty(s[LineLen(s)..]); }
  }

  /** The lines are non-empty and make up the text. */
  lemma LinesCover(s: string)
    ensures Concat(Lines(s)) == s
    ensures forall i :: 0 <= i < |Lines(s)| ==> Lines(s)[i] != ""
  {
    LinesConcat(s);
    LinesNonEmpty(s);
  }

  lemma ConcatSlice(lines: seq<string>, a: nat, i: nat)
    requires a <= i < |lines|
    ensures Concat(lines[a..i + 1]) == Concat(lines[a..i]) + lines[i]
  {
    ConcatSnoc(lines[a..i], lines[i]);
    assert lines[a..i + 1] == lines[a..i] + [lines[i]];
  }

  // ---- _split_text ---------------------------------------------------------------------

  /** Whole consecutive lines. */
  ghost predicate Whole(lines: seq<string>, a: nat, b: nat, piece: string) {
    a < b <= |lines| && piece == Concat(lines[a..b])
  }

  /** A part of one line that is longer than the budget. */
  ghost predicate Fragment(lines: seq<string>, a: nat, lo: nat, hi: nat, piece: string, max: nat) {
    a < |lines| && Bytes(lines[a]) > max && lo < hi <= |lines[a]| && piece == lines[a][lo..hi]
  }

  /** Lines that fit are never cut. */
  ghost predicate Uncut(lines: seq<string>, piece: string, max: nat) {
    || (exists a, b :: Whole(lines, a, b, piece))
    || (exists a, lo, hi :: Fragment(lines, a, lo, hi, piece, max))
  }

  /** A piece within the budget, or one character that alone exceeds it. */
  predicate Fits(piece: string, max: nat) {
    Bytes(piece) <= max || |piece| == 1
  }

  /** Any three consecutive pieces exceed the budget minus 4 bytes in total. */
  predicate Dense(pieces: seq<string>, max: nat) {
    forall k :: 0 <= k < |pieces| - 2 ==> Bytes(pieces[k]) + Bytes(pieces[k + 1]) + Bytes(pieces[k + 2]) > max - 4
  }

  ghost predicate SplitOf(pieces: seq<string>, text: string, max: nat) {
    && Concat(pieces) == text
    && (text == "" ==> pieces == [""])
    && (text != "" ==> forall p <- pieces :: p != "" && Uncut(Lines(text), p, max))
    && (forall p <- pieces :: Fits(p, max))
    && Dense(pieces, max)
  }

  /** What the last two pieces promise about the next one. */
  ghost predicate Ends(pieces: seq<string>, current: string, max: nat) {
    var n := |pieces|;
    n >= 2 ==>
      || Bytes(pieces[n - 2]) + Bytes(pieces[n - 1]) > max - 4
      || (current != "" && Bytes(pieces[n - 1]) + Bytes(current) > max - 4)
  }

  ghost predicate Emitted(pieces: seq<string>, lines: seq<string>, max: nat) {
    && (forall p <- pieces :: p != "" && Uncut(lines, p, max) && Fits(p, max))
    && Dense(pieces, max)
  }

  lemma DenseSnoc(pieces: seq<string>, piece: string, max: nat)
    requires Dense(pieces, max)
    requires |pieces| >= 2 ==>
               Bytes(pieces[|pieces| - 2]) + Bytes(pieces[|pieces| - 1]) + Bytes(piece) > max - 4
    ensures Dense(pieces + [piece], max)
  {
    var q := pieces + [piece];
    forall k | 0 <= k < |q| - 2 ensures Bytes(q[k]) + Bytes(q[k + 1]) + Bytes(q[k + 2]) > max - 4 {
      if k < |pieces| - 2 {
        assert q[k] == pieces[k] && q[k + 1] == pieces[k + 1] && q[k + 2] == pieces[k + 2];
      }
    }
  }

  lemma Emit(pieces: seq<string>, piece: string, lines: seq<string>, max: nat)
    requires Emitted(pieces, lines, max) && piece != "" && Uncut(lines, piece, max) && Fits(piece, max)
    requires |pieces| >= 2 ==>
               Bytes(pieces[|pieces| - 2]) + Bytes(pieces[|pieces| - 1]) + Bytes(piece) > max - 4
    ensures Emitted(pieces + [piece], lines, max)
    ensures Concat(pieces + [piece]) == Concat(pieces) + piece
  {
    DenseSnoc(pieces, piece, max);
    ConcatSnoc(pieces, piece);
    assert forall p :: p in pieces + [piece] ==> p in pieces || p == piece;
  }

  /** The state between two lines: pieces done, whole lines a..i collected. */
  ghost predicate Scan(pieces: seq<string>, current: string, lines: seq<string>, a: nat, i: nat, max: nat) {
    && a <= i <= |lines|
    && current == Concat(lines[a..i]) && (a == i <==> current == "") && Bytes(current) <= max
    && Emitted(pieces, lines, max) && Ends(pieces, current, max)
    && Concat(pieces) + current == Concat(lines[..i])
  }

  lemma ConcatPrefix(lines: seq<string>, i: nat)
    requires i < |lines|
    ensures Concat(lines[..i + 1]) == Concat(lines[..i]) + lines[i]
  {
    ConcatSnoc(lines[..i], lines[i]);
    assert lines[..i + 1] == lines[..i] + [lines[i]];
  }

  lemma Reassociate(a: string, b: string, c: string)
    ensures a + (b + c) == a + b + c
  {
  }

  lemma ScanAppend(pieces: seq<string>, current: string, lines: seq<string>, a: nat, i: nat, max: nat)
    requires Scan(pieces, current, lines, a, i, max)
    requires i < |lines| && lines[i] != "" && Bytes(current) + Bytes(lines[i]) <= max
    ensures Scan(pieces, current + lines[i], lines, a, i + 1, max)
    ensures Bytes(current + lines[i]) == Bytes(current) + Bytes(lines[i])
  {
    BytesAdd(current, lines[i]);
    ConcatSlice(lines, a, i);
    ConcatPrefix(lines, i);
    Reassociate(Concat(pieces), current, lines[i]);
  }

  lemma ScanFlush(pieces: seq<string>, current: string, lines: seq<string>, a: nat, i: nat, max: nat)
    requires Scan(pieces, current, lines, a, i, max) && current != ""
    ensures Emitted(pieces + [current], lines, max)
    ensures Concat(pieces + [current]) == Concat(lines[..i])
  {
    assert Whole(lines, a, i, current);
    Emit(pieces, current, lines, max);
  }

  lemma ScanRestart(pieces: seq<string>, lines: seq<string>, i: nat, max: nat)
    requires i < |lines| && lines[i] != "" && Bytes(lines[i]) <= max
    requires Emitted(pieces, lines, max) && Concat(pieces) == Concat(lines[..i])
    requires pieces != [] && Bytes(pieces[|pieces| - 1]) + Bytes(lines[i]) > max
    ensures Scan(pieces, lines[i], lines, i, i + 1, max)
  {
    ConcatPrefix(lines, i);
    ConcatSlice(lines, i, i);
    assert lines[i..i] == [] && "" + lines[i] == lines[i];
  }

  lemma ScanLong(pieces: seq<string>, lines: seq<string>, i: nat, max: nat)
    requires i < |lines| && Emitted(pieces, lines, max) && Ends(pieces, "", max)
    requires Concat(pieces) == Concat(lines[..i]) + lines[i]
    ensures Scan(pieces, "", lines, i + 1, i + 1, max)
  {
    ConcatPrefix(lines, i);
    assert lines[i + 1..i + 1] == [] && Concat(pieces) + "" == Concat(pieces);
  }

  /** The state between two characters of a line that does not fit: fragment is line[lo..k]. */
  ghost predicate Cut(done: seq<string>, pieces: seq<string>, fragment: string, lines: seq<string>, i: nat,
                      lo: nat, k: nat, max: nat) {
    && i < |lines| && lo <= k <= |lines[i]| && Bytes(lines[i]) > max
    && fragment == lines[i][lo..k] && Fits(fragment, max) && (k == 0 <==> fragment == "")
    && Emitted(pieces, lines, max) && Concat(pieces) == Concat(done) + lines[i][..lo]
    && (lo > 0 ==> pieces != [] && Bytes(pieces[|pieces| - 1]) > max - 4)
  }

  lemma CutUncut(lines: seq<string>, i: nat, lo: nat, k: nat, fragment: string, max: nat)
    requires i < |lines| && lo < k <= |lines[i]| && Bytes(lines[i]) > max && fragment == lines[i][lo..k]
    ensures Uncut(lines, fragment, max)
  {
    assert Fragment(lines, i, lo, k, fragment, max);
  }

  lemma WholeLine(line: string, lo: nat, k: nat)
    requires lo <= k <= |line|
    ensures line[..lo] + line[lo..k] == line[..k] && (lo == 0 && k == |line| ==> line[lo..k] == line)
  {
  }

  /** A fragment that ends the line, or is full, is large, or the piece before it is. */
  lemma CutIsDense(pieces: seq<string>, fragment: string, line: string, lo: nat, k: nat, max: nat)
    requires lo <= k <= |line| && fragment == line[lo..k] && Bytes(line) > max
    requires lo > 0 ==> pieces != [] && Bytes(pieces[|pieces| - 1]) > max - 4
    requires k == |line| || Bytes(fragment) > max - 4
    ensures Bytes(fragment) > max - 4 || (pieces != [] && Bytes(pieces[|pieces| - 1]) > max - 4)
  {
    WholeLine(line, lo, k);
  }

  lemma EndsDense(pieces: seq<string>, fragment: string, max: nat)
    requires Bytes(fragment) > max - 4 || (pieces != [] && Bytes(pieces[|pieces| - 1]) > max - 4)
    ensures Ends(pieces + [fragment], "", max)
    ensures |pieces| >= 2 ==> Bytes(pieces[|pieces| - 2]) + Bytes(pieces[|pieces| - 1]) + Bytes(fragment) > max - 4
  {
  }

  lemma CutEmit(done: seq<string>, pieces: seq<string>, fragment: string, lines: seq<string>, i: nat,
                lo: nat, k: nat, max: nat)
    requires Cut(done, pieces, fragment, lines, i, lo, k, max) && k > 0
    requires k == |lines[i]| || Bytes(fragment) > max - 4
    ensures Emitted(pieces + [fragment], lines, max)
    ensures Concat(pieces + [fragment]) == Concat(done) + lines[i][..k]
    ensures k == |lines[i]| ==> Ends(pieces + [fragment], "", max)
  {
    var line := lines[i];
    CutIsDense(pieces, fragment, line, lo, k, max);
    EndsDense(pieces, fragment, max);
    CutConcat(done, pieces, fragment, line, lo, k);
    assert |fragment| == k - lo;
    CutUncut(lines, i, lo, k, fragment, max);
    Emit(pieces, fragment, lines, max);
  }

  lemma CutConcat(done: seq<string>, pieces: seq<string>, fragment: string, line: string, lo: nat, k: nat)
    requires lo <= k <= |line| && fragment == line[lo..k] && Concat(pieces) == Concat(done) + line[..lo]
    ensures Concat(pieces + [fragment]) == Concat(done) + line[..k]
  {
    assert (pieces + [fragment])[..|pieces|] == pieces;
    WholeLine(line, lo, k);
    Reassociate(Concat(done), line[..lo], fragment);
  }

  lemma CutStep(done: seq<string>, pieces: seq<string>, fragment: string, lines: seq<string>, i: nat,
                lo: nat, k: nat, max: nat)
    requires Cut(done, pieces, fragment, lines, i, lo, k, max) && k < |lines[i]|
    requires k == 0 || Bytes(fragment) + Size(lines[i][k]) <= max
    ensures Cut(done, pieces, fragment + [lines[i][k]], lines, i, lo, k + 1, max)
    ensures Bytes(fragment + [lines[i][k]]) == Bytes(fragment) + Size(lines[i][k])
  {
    BytesSnoc(fragment, lines[i][k]);
  }

  lemma CutAgain(done: seq<string>, pieces: seq<string>, fragment: string, lines: seq<string>, i: nat,
                 lo: nat, k: nat, max: nat)
    requires Cut(done, pieces, fragment, lines, i, lo, k, max) && 0 < k < |lines[i]|
    requires Bytes(fragment) + Size(lines[i][k]) > max
    ensures Cut(done, pieces + [fragment], [lines[i][k]], lines, i, k, k + 1, max)
    ensures Bytes([lines[i][k]]) == Size(lines[i][k])
  {
    CutEmit(done, pieces, fragment, lines, i, lo, k, max);
    BytesSnoc("", lines[i][k]);
    assert lines[i][k..k + 1] == "" + [lines[i][k]];
  }

  lemma CutStart(done: seq<string>, lines: seq<string>, i: nat, max: nat)
    requires i < |lines| && Bytes(lines[i]) > max && Emitted(done, lines, max)
    ensures Cut(done, done, "", lines, i, 0, 0, max)
  {
    assert Concat(done) + lines[i][..0] == Concat(done);
  }

  lemma CutDone(done: seq<string>, pieces: seq<string>, fragment: string, lines: seq<string>, i: nat,
                lo: nat, max: nat)
    requires i < |lines| && Cut(done, pieces, fragment, lines, i, lo, |lines[i]|, max)
    ensures fragment != "" && Emitted(pieces + [fragment], lines, max) && Ends(pieces + [fragment], "", max)
    ensures Concat(pieces + [fragment]) == Concat(done) + lines[i]
  {
    assert lines[i] != "" && lines[i][..|lines[i]|] == lines[i];
    CutEmit(done, pieces, fragment, lines, i, lo, |lines[i]|, max);
  }

  /** One character of a line that does not fit: it joins the fragment, or the fragment is full and it
      starts the next. */
  method CutChar(done: seq<string>, before: seq<string>, gathered: string, gatheredBytes: nat, lines: seq<string>,
                 i: nat, ghost lo: nat, k: nat, max: nat)
    returns (pieces: seq<string>, fragment: string, fragmentBytes: nat, ghost lo': nat)
    requires Cut(done, before, gathered, lines, i, lo, k, max) && gatheredBytes == Bytes(gathered) && k < |lines[i]|
    ensures Cut(done, pieces, fragment, lines, i, lo', k + 1, max) && fragmentBytes == Bytes(fragment)
  {
    var size := Size(lines[i][k]);
    if gathered != "" && gatheredBytes + size > max {
      CutAgain(done, before, gathered, lines, i, lo, k, max);
      return before + [gathered], [lines[i][k]], size, k;
    }
    CutStep(done, before, gathered, lines, i, lo, k, max);
    return before, gathered + [lines[i][k]], gatheredBytes + size, lo;
  }

  /** The inner loop: the fragments of a line that does not fit. */
  method SplitLine(done: seq<string>, lines: seq<string>, i: nat, max: nat) returns (pieces: seq<string>)
    requires i < |lines| && Bytes(lines[i]) > max && Emitted(done, lines, max)
    ensures Emitted(pieces, lines, max) && Ends(pieces, "", max)
    ensures Concat(pieces) == Concat(done) + lines[i]
  {
    pieces := done;
    var fragment, fragmentBytes := "", 0;
    ghost var lo: nat := 0;
    CutStart(done, lines, i, max);
    for k := 0 to |lines[i]|
      invariant Cut(done, pieces, fragment, lines, i, lo, k, max) && fragmentBytes == Bytes(fragment)
    {
      pieces, fragment, fragmentBytes, lo := CutChar(done, pieces, fragment, fragmentBytes, lines, i, lo, k, max);
    }
    CutDone(done, pieces, fragment, lines, i, lo, max);
    if fragment != "" { pieces := pieces + [fragment]; }
  }

  lemma ScanStart(lines: seq<string>, max: nat)
    ensures Scan([], "", lines, 0, 0, max)
  {
  }

  lemma ScanDone(pieces: seq<string>, current: string, text: string, a: nat, max: nat)
    requires Scan(pieces, current, Lines(text), a, |Lines(text)|, max)
    ensures SplitOf(if current != "" then pieces + [current] else if pieces == [] then [""] else pieces, text, max)
  {
    var lines := Lines(text);
    assert lines[..|lines|] == lines;
    LinesCover(text);
    if current != "" {
      ScanFlush(pieces, current, lines, a, |lines|, max);
    } else if pieces == [] {
      assert Concat([""]) == "" by { ConcatSnoc([], ""); }
    } else {
      Pieced(pieces);
    }
  }

  lemma Pieced(pieces: seq<string>)
    requires pieces != [] && forall p <- pieces :: p != ""
    ensures Concat(pieces) != ""
  {
    assert pieces[|pieces| - 1] in pieces;
  }

  /** A line that fits: flush first when it would overflow what is collected. */
  method CollectLine(done: seq<string>, collected: string, collectedBytes: nat, lines: seq<string>, i: nat, max: nat,
                     ghost a: nat)
    returns (pieces: seq<string>, current: string, currentBytes: nat, ghost a': nat)
    requires Scan(done, collected, lines, a, i, max) && collectedBytes == Bytes(collected)
    requires i < |lines| && lines[i] != "" && Bytes(lines[i]) <= max
    ensures Scan(pieces, current, lines, a', i + 1, max) && currentBytes == Bytes(current)
  {
    var encoded := Bytes(lines[i]);
    if collected != "" && collectedBytes + encoded > max {
      ScanFlush(done, collected, lines, a, i, max);
      pieces := done + [collected];
      ScanRestart(pieces, lines, i, max);
      return pieces, lines[i], encoded, i;
    }
    ScanAppend(done, collected, lines, a, i, max);
    return done, collected + lines[i], collectedBytes + encoded, a;
  }

  /** A line that does not fit: flush, then cut it. */
  method CutLine(done: seq<string>, collected: string, lines: seq<string>, i: nat, max: nat, ghost a: nat)
    returns (pieces: seq<string>)
    requires Scan(done, collected, lines, a, i, max)
    requires i < |lines| && Bytes(lines[i]) > max
    ensures Scan(pieces, "", lines, i + 1, i + 1, max)
  {
    pieces := done;
    if collected != "" {
      ScanFlush(done, collected, lines, a, i, max);
      pieces := done + [collected];
    } else {
      assert Concat(done) + collected == Concat(done);
    }
    pieces := SplitLine(pieces, lines, i, max);
    ScanLong(pieces, lines, i, max);
  }

  /** _split_text. */
  method SplitText(text: string, maxBytes: int) returns (r: Result<seq<string>>)
    ensures maxBytes < 1 <==> r == Err(ValueError)
    ensures maxBytes >= 1 ==> r.Ok? && SplitOf(r.value, text, maxBytes)
  {
    if maxBytes < 1 { return Err(ValueError); }
    var max: nat := maxBytes;
    var lines := Lines(text);
    LinesCover(text);
    ScanStart(lines, max);
    var pieces: seq<string> := [];
    var current, currentBytes: nat := "", 0;
    ghost var a: nat := 0;
    for i := 0 to |lines|
      invariant Scan(pieces, current, lines, a, i, max) && currentBytes == Bytes(current)
    {
      if Bytes(lines[i]) <= max {
        pieces, current, currentBytes, a := CollectLine(pieces, current, currentBytes, lines, i, max, a);
      } else {
        pieces := CutLine(pieces, current, lines, i, max, a);
        current, currentBytes, a := "", 0, i + 1;
      }
    }
    ScanDone(pieces, current, text, a, max);
    if current != "" { pieces := pieces + [current]; }
    return Ok(if pieces == [] then [""] else pieces);
  }
}
