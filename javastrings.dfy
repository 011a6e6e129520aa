/** The handful of `java.lang.String` and `Integer` operations the engine's parsers rely on. */
module JavaStrings {
  import opened Java

  predicate IsDigit(c: char) { '0' <= c <= '9' }

  predicate AllDigits(s: string) { forall i :: 0 <= i < |s| ==> IsDigit(s[i]) }

  function DigitValue(c: char): (d: nat)
    requires IsDigit(c)
    ensures d < 10
  {
    c as int - '0' as int
  }

  function DigitChar(d: nat): (c: char)
    requires d < 10
    ensures IsDigit(c) && DigitValue(c) == d
  {
    ('0' as int + d) as char
  }

  /** The value of a run of decimal digits, most significant first. */
  function DigitsValue(s: string): nat
    requires AllDigits(s)
  {
    if s == [] then 0 else DigitsValue(s[..|s| - 1]) * 10 + DigitValue(s[|s| - 1])
  }

  /** `Integer.toString` of a non-negative value: its decimal digits, with no leading zero. */
  function NatToString(n: nat): (s: string)
    ensures |s| >= 1 && AllDigits(s)
    ensures DigitsValue(s) == n
    ensures s[0] == '0' ==> s == "0"
  {
    if n < 10 then [DigitChar(n)]
    else
      var front := NatToString(n / 10);
      var s := front + [DigitChar(n % 10)];
      assert s[..|s| - 1] == front;
      s
  }

  /** `Integer.toString`: a minus sign in front of the magnitude of a negative value. */
  function IntToString(n: int): (s: string)
    ensures |s| >= 1
    ensures n < 0 <==> s[0] == '-'
    ensures forall i :: 0 <= i < |s| ==> s[i] == '-' || IsDigit(s[i])
  {
    if n < 0 then "-" + NatToString(-n) else NatToString(n)
  }

  /** `Integer.parseInt(s)` in radix 10: an optional sign, then at least one digit, in the range of `int`.
    * Anything else raises `NumberFormatException`. */
  function ParseInt(s: string): (r: Result<int>)
    ensures r.Ok? ==> IsInt32(r.value)
    ensures r.Throws? ==> r.ex == NumberFormat
    ensures r.Ok? ==> s != [] && (s[0] == '-' || s[0] == '+' || IsDigit(s[0]))
  {
    if s == [] then Throws(NumberFormat)
    else
      var signed := s[0] == '-' || s[0] == '+';
      var body := if signed then s[1..] else s;
      if body == [] || !AllDigits(body) then Throws(NumberFormat)
      else
        var v: int := if s[0] == '-' then -(DigitsValue(body) as int) else DigitsValue(body);
        if IsInt32(v) then Ok(v) else Throws(NumberFormat)
  }

  /** Printing an `int` and parsing it back gives the same value. */
  lemma ParseIntToString(n: int)
    requires IsInt32(n)
    ensures ParseInt(IntToString(n)) == Ok(n)
  {
    var s := IntToString(n);
    if n < 0 {
      assert s[1..] == NatToString(-n);
    } else {
      assert s[0] != '-' && s[0] != '+';
    }
  }

  /** Different values print differently. */
  lemma IntToStringInjective(a: int, b: int)
    requires IntToString(a) == IntToString(b)
    ensures a == b
  {
    var s := IntToString(a);
    if a < 0 {
      assert s[1..] == NatToString(-a) == NatToString(-b);
    }
  }

  /** Values outside the range of `int` do not parse. */
  lemma ParseIntRejectsWide(n: int)
    requires !IsInt32(n)
    ensures ParseInt(IntToString(n)) == Throws(NumberFormat)
  {
    var s := IntToString(n);
    if n < 0 {
      assert s[1..] == NatToString(-n);
    } else {
      assert s[0] != '-' && s[0] != '+';
    }
  }

  /** `s.replace(c, "")`: every occurrence of `c` deleted, the rest kept in order. */
  function RemoveChar(s: string, c: char): (r: string)
    ensures |r| <= |s|
    ensures forall i :: 0 <= i < |r| ==> r[i] != c
    ensures (forall i :: 0 <= i < |s| ==> s[i] != c) ==> r == s
  {
    if s == [] then []
    else if s[0] == c then RemoveChar(s[1..], c)
    else [s[0]] + RemoveChar(s[1..], c)
  }

  lemma {:induction false} RemoveCharAppend(a: string, b: string, c: char)
    ensures RemoveChar(a + b, c) == RemoveChar(a, c) + RemoveChar(b, c)
  {
    if a != [] {
      assert (a + b)[0] == a[0] && (a + b)[1..] == a[1..] + b;
      RemoveCharAppend(a[1..], b, c);
    } else {
      assert a + b == b;
    }
  }

  /** Deleting a character twice is deleting it once. */
  lemma RemoveCharIdempotent(s: string, c: char)
    ensures RemoveChar(RemoveChar(s, c), c) == RemoveChar(s, c)
  {
  }

  /** `RemoveChar` leaves nothing exactly when every character is the one removed. */
  lemma {:induction false} RemoveCharEmpty(s: string, c: char)
    ensures RemoveChar(s, c) == [] <==> forall i :: 0 <= i < |s| ==> s[i] == c
  {
    if s != [] {
      RemoveCharEmpty(s[1..], c);
      if s[0] == c {
        assert forall i :: 1 <= i < |s| ==> s[i] == s[1..][i - 1];
        assert (forall i :: 0 <= i < |s| ==> s[i] == c) <==> (forall i :: 0 <= i < |s[1..]| ==> s[1..][i] == c);
      }
    }
  }

  predicate StartsWith(s: string, prefix: string)
  {
    |prefix| <= |s| && s[..|prefix|] == prefix
  }

  /** The three regular expressions split on: a single character (`"/"`, `"\\="`), a run of one
    * character (`" +"`, `"[|]+"`), and a `>` followed by a run of spaces (`"> +"`). */
  datatype Pattern = Lit(c: char) | Run(c: char) | GtRun

  /** The length of a run of `c` starting at `i`. */
  function RunLength(s: string, c: char, i: nat): (n: nat)
    requires i <= |s|
    ensures i + n <= |s|
    ensures forall j :: i <= j < i + n ==> s[j] == c
    ensures i + n < |s| ==> s[i + n] != c
    decreases |s| - i
  {
    if i == |s| || s[i] != c then 0 else 1 + RunLength(s, c, i + 1)
  }

  /** The length of the longest match of the pattern starting at `i`; 0 when none starts there. */
  function MatchLen(p: Pattern, s: string, i: nat): (n: nat)
    requires i < |s|
    ensures i + n <= |s|
  {
    match p
    case Lit(c) => if s[i] == c then 1 else 0
    case Run(c) => RunLength(s, c, i)
    case GtRun => if s[i] == '>' && i + 1 < |s| && s[i + 1] == ' ' then 1 + RunLength(s, ' ', i + 1) else 0
  }

  /** The pieces between successive leftmost-longest matches, scanning from `i`, with the current
    * piece starting at `start`; the last piece runs to the end of the string. */
  function Pieces(p: Pattern, s: string, start: nat, i: nat): (ps: seq<string>)
    requires start <= i <= |s|
    ensures |ps| >= 1
    decreases |s| - i
  {
    if i == |s| then [s[start..]]
    else
      var m := MatchLen(p, s, i);
      if m > 0 then [s[start..i]] + Pieces(p, s, i + m, i + m)
      else Pieces(p, s, start, i + 1)
  }

  /** Trailing empty strings removed, as `split` with limit 0 does. */
  function StripTrailingEmpty(ps: seq<string>): (r: seq<string>)
    ensures |r| <= |ps| && r == ps[..|r|]
    ensures r == [] || r[|r| - 1] != []
    ensures forall k :: |r| <= k < |ps| ==> ps[k] == []
  {
    if ps == [] then []
    else if ps[|ps| - 1] == [] then StripTrailingEmpty(ps[..|ps| - 1])
    else ps
  }

  /** `s.split(regex)`: the input itself when nothing matches, otherwise the pieces without trailing empties. */
  function Split(p: Pattern, s: string): (r: seq<string>)
    ensures s == [] ==> r == [""]
    ensures r == [s] || r == [] || r[|r| - 1] != []
  {
    var ps := Pieces(p, s, 0, 0);
    if |ps| == 1 then [s] else StripTrailingEmpty(ps)
  }

  /** A split that finds no match has the one piece that runs from `start` to the end. */
  lemma {:induction false} PiecesSingle(p: Pattern, s: string, start: nat, i: nat)
    requires start <= i <= |s| && |Pieces(p, s, start, i)| == 1
    ensures Pieces(p, s, start, i) == [s[start..]]
    decreases |s| - i
  {
    if i < |s| && MatchLen(p, s, i) == 0 {
      PiecesSingle(p, s, start, i + 1);
    }
  }

  /** No piece of a split on one character, or on a run of it, contains that character. */
  lemma SplitAvoids(p: Pattern, s: string)
    requires p.Lit? || p.Run?
    ensures forall k :: 0 <= k < |Split(p, s)| ==> p.c !in Split(p, s)[k]
  {
    var ps := Pieces(p, s, 0, 0);
    PiecesAvoid(p, s, 0, 0);
    if |ps| == 1 {
      PiecesSingle(p, s, 0, 0);
      assert s[0..] == s;
    }
  }

  /** The pieces joined back together with `sep` between neighbours. */
  function Join(ps: seq<string>, sep: string): string
  {
    if ps == [] then []
    else if |ps| == 1 then ps[0]
    else ps[0] + sep + Join(ps[1..], sep)
  }

  /** Two pieces joined: the first, the separator, the second. */
  lemma JoinPair(a: string, b: string, sep: string)
    ensures Join([a, b], sep) == a + sep + b
  {
    assert [a, b][1..] == [b];
  }

  /** Splitting on a single character and joining with it restores the scanned text. */
  lemma {:induction false} PiecesLitJoin(c: char, s: string, start: nat, i: nat)
    requires start <= i <= |s|
    requires forall j :: start <= j < i ==> s[j] != c
    ensures Join(Pieces(Lit(c), s, start, i), [c]) == s[start..]
    decreases |s| - i
  {
    if i < |s| {
      if s[i] == c {
        PiecesLitJoin(c, s, i + 1, i + 1);
        assert s[start..] == s[start..i] + [c] + s[i + 1..];
      } else {
        PiecesLitJoin(c, s, start, i + 1);
      }
    }
  }

  /** No piece of a single-character or run split contains the separator character. */
  lemma {:induction false} PiecesAvoid(p: Pattern, s: string, start: nat, i: nat)
    requires p.Lit? || p.Run?
    requires start <= i <= |s|
    requires forall j :: start <= j < i ==> s[j] != p.c
    ensures forall k :: 0 <= k < |Pieces(p, s, start, i)| ==> p.c !in Pieces(p, s, start, i)[k]
    decreases |s| - i
  {
    assert forall j :: start <= j < i ==> s[start..i][j - start] == s[j];
    if i < |s| {
      var m := MatchLen(p, s, i);
      if m > 0 {
        assert s[i + m - 1] == p.c || p.Lit?;
        if p.Run? {
          assert i + m == |s| || s[i + m] != p.c;
        }
        PiecesAvoid(p, s, i + m, i + m);
      } else {
        PiecesAvoid(p, s, start, i + 1);
      }
    }
  }

  /** When the text neither is empty nor ends with the separator, the last piece is not empty. */
  lemma {:induction false} PiecesLitLast(c: char, s: string, start: nat, i: nat)
    requires start <= i <= |s|
    requires s != [] && s[|s| - 1] != c
    requires start == 0 || s[start - 1] == c
    ensures var ps := Pieces(Lit(c), s, start, i); ps[|ps| - 1] != []
    decreases |s| - i
  {
    if i < |s| {
      if s[i] == c {
        PiecesLitLast(c, s, i + 1, i + 1);
      } else {
        PiecesLitLast(c, s, start, i + 1);
      }
    }
  }

  /** Splitting a text that does not end with the separator and joining the pieces is the identity. */
  lemma SplitLitJoin(c: char, s: string)
    requires s != [] && s[|s| - 1] != c
    ensures Join(Split(Lit(c), s), [c]) == s
    ensures |Split(Lit(c), s)| >= 1
  {
    PiecesLitJoin(c, s, 0, 0);
    PiecesLitLast(c, s, 0, 0);
  }

  /** A split on runs of `c` is empty exactly when the text is a non-empty run of `c`. */
  lemma SplitRunEmpty(c: char, s: string)
    ensures Split(Run(c), s) == [] <==> s != [] && forall j :: 0 <= j < |s| ==> s[j] == c
  {
    var ps := Pieces(Run(c), s, 0, 0);
    if s != [] && forall j :: 0 <= j < |s| ==> s[j] == c {
      assert RunLength(s, c, 0) == |s|;
      assert s[|s|..] == [];
      assert Pieces(Run(c), s, |s|, |s|) == [[]];
      assert ps == [[]] + [[]];
    } else if Split(Run(c), s) == [] {
      PiecesRunNonEmpty(c, s, 0, 0);
    }
  }

  /** A text that is not all separator characters leaves a non-empty piece. */
  lemma {:induction false} PiecesRunNonEmpty(c: char, s: string, start: nat, i: nat)
    requires start <= i <= |s|
    requires forall j :: start <= j < i ==> s[j] != c
    ensures (exists j :: start <= j < |s| && s[j] != c) ==>
      exists k :: 0 <= k < |Pieces(Run(c), s, start, i)| && Pieces(Run(c), s, start, i)[k] != []
    decreases |s| - i
  {
    var ps := Pieces(Run(c), s, start, i);
    if exists j :: start <= j < |s| && s[j] != c {
      var j :| start <= j < |s| && s[j] != c;
      if i == |s| {
        assert s[start..][j - start] == s[j];
        assert ps[0] != [];
      } else {
        var m := MatchLen(Run(c), s, i);
        if m > 0 {
          if start < i {
            assert s[start..i][0] == s[start];
            assert ps[0] != [];
          } else {
            PiecesRunNonEmpty(c, s, i + m, i + m);
            var rest := Pieces(Run(c), s, i + m, i + m);
            assert ps == [s[start..i]] + rest;
            assert j >= i + m;
            var k :| 0 <= k < |rest| && rest[k] != [];
            assert ps[k + 1] == rest[k];
          }
        } else {
          PiecesRunNonEmpty(c, s, start, i + 1);
        }
      }
    }
  }

  /** The text a pattern is written back with between two pieces. */
  function Sep(p: Pattern): string
  {
    if p.GtRun? then "> " else [p.c]
  }

  /** A piece that re-splits as itself: non-empty, free of the separator, and not starting with
    * what a run would swallow. */
  predicate Clean(p: Pattern, t: string)
  {
    t != [] &&
    (p.GtRun? ==> '>' !in t && t[0] != ' ') &&
    (!p.GtRun? ==> p.c !in t)
  }

  /** Positions where nothing matches are skipped over. */
  lemma {:induction false} PiecesSkip(p: Pattern, s: string, start: nat, i: nat, j: nat)
    requires start <= i <= j <= |s|
    requires forall k :: i <= k < j ==> MatchLen(p, s, k) == 0
    ensures Pieces(p, s, start, i) == Pieces(p, s, start, j)
    decreases j - i
  {
    if i < j {
      PiecesSkip(p, s, start, i + 1, j);
    }
  }

  /** A clean piece that ends the text is the last piece. */
  lemma PiecesCleanAt(p: Pattern, s: string, i: nat, t: string)
    requires i <= |s| && s[i..] == t && Clean(p, t)
    ensures Pieces(p, s, i, i) == [t]
  {
    forall k | i <= k < |s| ensures MatchLen(p, s, k) == 0 {
      assert s[k] == s[i..][k - i] && s[k] in t;
    }
    PiecesSkip(p, s, i, i, |s|);
  }

  lemma PiecesAtMatch(p: Pattern, s: string, start: nat, i: nat)
    requires start <= i < |s| && MatchLen(p, s, i) > 0
    ensures Pieces(p, s, start, i) == [s[start..i]] + Pieces(p, s, i + MatchLen(p, s, i), i + MatchLen(p, s, i))
  {
  }

  /** The matches of a pattern that starts right after a clean piece. */
  lemma MatchAfterPiece(p: Pattern, s: string, i: nat, t: string, rest: string)
    requires i + |t| + |Sep(p)| + |rest| == |s| && s[i..] == t + Sep(p) + rest
    requires Clean(p, t) && rest != []
    requires p.GtRun? ==> rest[0] != ' '
    requires !p.GtRun? ==> rest[0] != p.c
    ensures forall k :: i <= k < i + |t| ==> MatchLen(p, s, k) == 0
    ensures MatchLen(p, s, i + |t|) == |Sep(p)|
    ensures s[i..i + |t|] == t && s[i + |t| + |Sep(p)|..] == rest
  {
    forall k | i <= k < i + |t| ensures MatchLen(p, s, k) == 0 {
      assert s[k] == s[i..][k - i] == t[k - i] && t[k - i] in t;
    }
    var e := i + |t|;
    assert s[e] == s[i..][|t|] == Sep(p)[0];
    if p.GtRun? {
      assert s[e + 1] == s[i..][|t| + 1] == ' ';
      assert s[e + 2] == s[i..][|t| + 2] == rest[0];
      assert RunLength(s, ' ', e + 2) == 0;
    } else if p.Run? {
      assert s[e + 1] == s[i..][|t| + 1] == rest[0];
      assert RunLength(s, p.c, e + 1) == 0;
    }
    assert s[i..i + |t|] == s[i..][..|t|];
    assert s[e + |Sep(p)|..] == s[i..][|t| + |Sep(p)|..];
  }

  /** How clean pieces after the first continue the joined text. */
  lemma JoinNext(p: Pattern, ts: seq<string>)
    requires |ts| >= 2 && forall k :: 0 <= k < |ts| ==> Clean(p, ts[k])
    ensures var rest := Join(ts[1..], Sep(p));
      Join(ts, Sep(p)) == ts[0] + Sep(p) + rest && rest != [] &&
      (p.GtRun? ==> rest[0] != ' ') && (!p.GtRun? ==> rest[0] != p.c) &&
      Clean(p, ts[0]) && forall k :: 0 <= k < |ts[1..]| ==> Clean(p, ts[1..][k])
  {
    assert ts[1] == ts[1..][0] && ts[1][0] in ts[1];
    assert Clean(p, ts[1]);
    JoinStarts(ts[1..], Sep(p));
  }

  /** The pieces of clean pieces written back with the separator are those pieces. */
  lemma {:induction false} PiecesJoinAt(p: Pattern, s: string, i: nat, ts: seq<string>)
    requires i <= |s| && |ts| >= 1 && forall k :: 0 <= k < |ts| ==> Clean(p, ts[k])
    requires s[i..] == Join(ts, Sep(p))
    ensures Pieces(p, s, i, i) == ts
    decreases |ts|
  {
    var t := ts[0];
    if |ts| == 1 {
      PiecesCleanAt(p, s, i, t);
    } else {
      var e := i + |t|;
      var j := e + |Sep(p)|;
      JoinNext(p, ts);
      MatchAfterPiece(p, s, i, t, Join(ts[1..], Sep(p)));
      PiecesSkip(p, s, i, i, e);
      PiecesJoinAt(p, s, j, ts[1..]);
      PiecesAtMatch(p, s, i, e);
      calc {
        Pieces(p, s, i, i);
        Pieces(p, s, i, e);
        [s[i..e]] + Pieces(p, s, j, j);
        [t] + ts[1..];
        ts;
      }
    }
  }

  lemma {:induction false} JoinStarts(ts: seq<string>, sep: string)
    requires |ts| >= 1 && ts[0] != []
    ensures Join(ts, sep) != [] && Join(ts, sep)[0] == ts[0][0]
  {
  }

  /** Splitting clean pieces joined with the separator gives the pieces back. */
  lemma SplitJoin(p: Pattern, ts: seq<string>)
    requires |ts| >= 1 && forall k :: 0 <= k < |ts| ==> Clean(p, ts[k])
    ensures Split(p, Join(ts, Sep(p))) == ts
  {
    PiecesJoinAt(p, Join(ts, Sep(p)), 0, ts);
    if |ts| == 1 {
      assert Join(ts, Sep(p)) == ts[0];
    }
  }

  // ---------------------------------------------------------------- Float.parseFloat

  /** What `String.trim` removes from both ends: the characters up to and including the space. */
  predicate IsBlank(c: char) { c <= ' ' }

  function TrimStart(s: string): (r: string)
    ensures r == [] || !IsBlank(r[0])
    ensures (s == [] || !IsBlank(s[0])) ==> r == s
  {
    if s != [] && IsBlank(s[0]) then TrimStart(s[1..]) else s
  }

  function TrimEnd(s: string): (r: string)
    ensures r == [] || !IsBlank(r[|r| - 1])
    ensures (s == [] || !IsBlank(s[|s| - 1])) ==> r == s
  {
    if s != [] && IsBlank(s[|s| - 1]) then TrimEnd(s[..|s| - 1]) else s
  }

  /** `s.trim()`. */
  function Trim(s: string): string
  {
    TrimEnd(TrimStart(s))
  }

  predicate IsHexDigit(c: char) { IsDigit(c) || 'a' <= c <= 'f' || 'A' <= c <= 'F' }

  /** Where the scanner of a floating-point literal is: in the mantissa (`Int` and `Frac` once a
    * digit is seen, `Start` and `Dot` before), in the exponent, or past the type suffix; `Hex` and
    * `Bin` states are those of a hexadecimal literal and its binary exponent. */
  datatype FloatState =
    | Start | Int | Dot | Frac | Exp | ExpSign | ExpDigits | Suffix
    | HexStart | HexInt | HexDot | HexFrac | BinExp | BinExpSign | BinExpDigits

  predicate IsSuffix(c: char) { c in "fFdD" }

  /** One character of a literal; `None` rejects it. */
  function FloatStep(st: FloatState, c: char): Option<FloatState>
  {
    match st
    case Start => if IsDigit(c) then Some(Int) else if c == '.' then Some(Dot) else None
    case Int => if IsDigit(c) then Some(Int) else if c == '.' then Some(Frac)
      else if c in "eE" then Some(Exp) else if IsSuffix(c) then Some(Suffix) else None
    case Dot => if IsDigit(c) then Some(Frac) else None
    case Frac => if IsDigit(c) then Some(Frac) else if c in "eE" then Some(Exp)
      else if IsSuffix(c) then Some(Suffix) else None
    case Exp => if c in "+-" then Some(ExpSign) else if IsDigit(c) then Some(ExpDigits) else None
    case ExpSign => if IsDigit(c) then Some(ExpDigits) else None
    case ExpDigits => if IsDigit(c) then Some(ExpDigits) else if IsSuffix(c) then Some(Suffix) else None
    case Suffix => None
    case HexStart => if IsHexDigit(c) then Some(HexInt) else if c == '.' then Some(HexDot) else None
    case HexInt => if IsHexDigit(c) then Some(HexInt) else if c == '.' then Some(HexFrac)
      else if c in "pP" then Some(BinExp) else None
    case HexDot => if IsHexDigit(c) then Some(HexFrac) else None
    case HexFrac => if IsHexDigit(c) then Some(HexFrac) else if c in "pP" then Some(BinExp) else None
    case BinExp => if c in "+-" then Some(BinExpSign) else if IsDigit(c) then Some(BinExpDigits) else None
    case BinExpSign => if IsDigit(c) then Some(BinExpDigits) else None
    case BinExpDigits => if IsDigit(c) then Some(BinExpDigits) else if IsSuffix(c) then Some(Suffix) else None
  }

  /** The states a literal may end in: a mantissa with a digit, an exponent with a digit, or a
    * suffix; a hexadecimal literal only after its binary exponent's digits. */
  predicate FloatAccepts(st: FloatState)
  {
    st in {Int, Frac, ExpDigits, Suffix, BinExpDigits}
  }

  /** The characters from `i` on take the scanner from `st` to an accepting state. */
  predicate FloatScan(r: string, i: nat, st: FloatState)
    requires i <= |r|
    decreases |r| - i
  {
    if i == |r| then FloatAccepts(st)
    else match FloatStep(st, r[i])
      case None => false
      case Some(next) => FloatScan(r, i + 1, next)
  }

  /** The trimmed text without its sign. */
  function Unsigned(s: string): string
  {
    var t := Trim(s);
    if t != [] && t[0] in "+-" then t[1..] else t
  }

  /** `Float.parseFloat(s)` returns rather than raising `NumberFormatException`: after trimming and an
    * optional sign, `NaN`, `Infinity`, a hexadecimal literal `0x` mantissa `p` exponent, or a decimal
    * literal, either with an optional `f`/`F`/`d`/`D` suffix. */
  predicate IsFloat(s: string)
  {
    var r := Unsigned(s);
    r == "NaN" || r == "Infinity" ||
    if |r| >= 2 && r[0] == '0' && r[1] in "xX" then FloatScan(r, 2, HexStart) else FloatScan(r, 0, Start)
  }

  /** `Float.parseFloat(s)`, the value kept as the text. */
  function ParseFloat(s: string): (r: Result<string>)
    ensures r.Ok? ==> r.value == s && Unsigned(s) != []
    ensures r.Throws? ==> r.ex == NumberFormat
  {
    if IsFloat(s) then Ok(s) else Throws(NumberFormat)
  }

  lemma {:induction false} ScanDigits(r: string, i: nat)
    requires i <= |r| && forall k :: i <= k < |r| ==> IsDigit(r[k])
    ensures FloatScan(r, i, Int)
    decreases |r| - i
  {
    if i < |r| {
      ScanDigits(r, i + 1);
    }
  }

  /** Printed integers parse as floats. */
  lemma IntToStringIsFloat(n: int)
    ensures ParseFloat(IntToString(n)).Ok?
  {
    var s := IntToString(n);
    var u := if n < 0 then NatToString(-n) else NatToString(n);
    assert Trim(s) == s;
    assert Unsigned(s) == u by {
      if n < 0 {
        assert s[1..] == u;
      }
    }
    ScanDigits(u, 1);
  }

  /** The states reached only through a decimal digit. */
  predicate SawDigit(st: FloatState)
  {
    st in {Int, Frac, Exp, ExpSign, ExpDigits, Suffix, BinExpDigits}
  }

  lemma {:induction false} ScanNeedsDigit(r: string, i: nat, st: FloatState)
    requires i <= |r| && FloatScan(r, i, st) && !SawDigit(st)
    ensures exists k :: i <= k < |r| && IsDigit(r[k])
    decreases |r| - i
  {
    if i < |r| {
      var next := FloatStep(st, r[i]).value;
      if !SawDigit(next) {
        ScanNeedsDigit(r, i + 1, next);
      } else {
        assert IsDigit(r[i]);
      }
    } else {
      assert false;
    }
  }

  /** Apart from `NaN` and `Infinity`, a float needs a decimal digit: the mantissa's or the
    * exponent's. */
  lemma FloatHasDigit(s: string)
    requires ParseFloat(s).Ok? && Unsigned(s) != "NaN" && Unsigned(s) != "Infinity"
    ensures exists k :: 0 <= k < |Unsigned(s)| && IsDigit(Unsigned(s)[k])
  {
    var r := Unsigned(s);
    if |r| >= 2 && r[0] == '0' && r[1] in "xX" {
      assert IsDigit(r[0]);
    } else {
      ScanNeedsDigit(r, 0, Start);
    }
  }
}
