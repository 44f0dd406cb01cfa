/** String and number primitives that every parser of the console leans on:
    the JavaScript library calls (trim, split, toLowerCase, parseInt, the
    template-literal rendering of a number) restricted to ASCII, and the
    UTF-8 byte-order mark that every importer strips. */
module Text {

  datatype Option<T> = None | Some(value: T)

  /** U+FEFF, the byte-order mark a spreadsheet puts in front of a UTF-8 CSV. */
  const BOM: char := '\U{FEFF}'

  /** The characters String.prototype.trim removes, restricted to ASCII
      whitespace, the no-break space and the byte-order mark. */
  predicate IsSpace(c: char) {
    c == ' ' || c == '\t' || c == '\n' || c == '\r' || c == '\U{000B}' || c == '\U{000C}'
    || c == '\U{00A0}' || c == BOM
  }

  predicate AllSpace(s: string) {
    forall i :: 0 <= i < |s| ==> IsSpace(s[i])
  }

  function TrimStart(s: string): (r: string)
    ensures |r| <= |s|
  {
    if s == [] || !IsSpace(s[0]) then s else TrimStart(s[1..])
  }

  function TrimEnd(s: string): (r: string)
    ensures |r| <= |s|
  {
    if s == [] || !IsSpace(s[|s| - 1]) then s else TrimEnd(s[..|s| - 1])
  }

  /** TrimStart keeps a suffix that does not start with a space. */
  lemma {:induction false} TrimStartSuffix(s: string)
    ensures var r := TrimStart(s); r == s[|s| - |r|..] && (r == [] || !IsSpace(r[0]))
    decreases |s|
  {
    if s != [] && IsSpace(s[0]) {
      TrimStartSuffix(s[1..]);
    }
  }

  /** TrimEnd keeps a prefix that does not end with a space. */
  lemma {:induction false} TrimEndPrefix(s: string)
    ensures var r := TrimEnd(s); r == s[..|r|] && (r == [] || !IsSpace(r[|r| - 1]))
    decreases |s|
  {
    if s != [] && IsSpace(s[|s| - 1]) {
      TrimEndPrefix(s[..|s| - 1]);
    }
  }

  /** String.prototype.trim. */
  function Trim(s: string): string {
    TrimEnd(TrimStart(s))
  }

  /** `s.trim()` is the empty string, i.e. `s.trim()` is falsy. */
  predicate IsBlank(s: string) {
    Trim(s) == []
  }

  /** What TrimStart removes is all space. */
  lemma {:induction false} TrimStartRemovesSpace(s: string)
    ensures AllSpace(s[..|s| - |TrimStart(s)|])
    decreases |s|
  {
    if s != [] && IsSpace(s[0]) {
      TrimStartRemovesSpace(s[1..]);
      var k := |s| - |TrimStart(s)|;
      forall i | 0 <= i < k ensures IsSpace(s[i]) {
        if i > 0 {
          assert s[i] == s[1..][..k - 1][i - 1];
        }
      }
    }
  }

  /** What TrimEnd removes is all space. */
  lemma {:induction false} TrimEndRemovesSpace(s: string)
    ensures AllSpace(s[|TrimEnd(s)|..])
    decreases |s|
  {
    if s != [] && IsSpace(s[|s| - 1]) {
      TrimEndRemovesSpace(s[..|s| - 1]);
      var k := |TrimEnd(s)|;
      forall i | k <= i < |s| ensures IsSpace(s[i]) {
        if i < |s| - 1 {
          assert s[i] == s[..|s| - 1][k..][i - k];
        }
      }
    }
  }

  lemma BlankIffAllSpace(s: string)
    ensures IsBlank(s) <==> AllSpace(s)
  {
    var t := TrimStart(s);
    TrimStartRemovesSpace(s);
    TrimEndRemovesSpace(t);
    TrimStartSuffix(s);
    TrimEndPrefix(t);
    if IsBlank(s) {
      assert AllSpace(t[0..]);
      assert |t| == 0;
      forall i | 0 <= i < |s| ensures IsSpace(s[i]) {
        assert s[i] == s[..|s| - |t|][i];
      }
    } else if t != [] {
      assert t[0] == s[|s| - |t|];
    }
  }

  lemma NotBlankIfStartsSolid(s: string)
    requires s != [] && !IsSpace(s[0])
    ensures !IsBlank(s)
  {
    BlankIffAllSpace(s);
  }

  /** Trimming a string with no space at either end changes nothing. */
  lemma TrimOfTrimmed(s: string)
    requires s == [] || (!IsSpace(s[0]) && !IsSpace(s[|s| - 1]))
    ensures Trim(s) == s
  {
    if s != [] {
      assert TrimStart(s) == s;
    }
  }

  lemma TrimIdempotent(s: string)
    ensures Trim(Trim(s)) == Trim(s)
  {
    var t := Trim(s);
    TrimStartSuffix(s);
    TrimEndPrefix(TrimStart(s));
    if t != [] {
      assert TrimStart(s)[..|t|] == t;
      TrimOfTrimmed(t);
    }
  }

  lemma TrimEmpty()
    ensures Trim("") == "" && IsBlank("")
  {
  }

  function LowerChar(c: char): char {
    if 'A' <= c <= 'Z' then (c as int - 'A' as int + 'a' as int) as char else c
  }

  function UpperChar(c: char): char {
    if 'a' <= c <= 'z' then (c as int - 'a' as int + 'A' as int) as char else c
  }

  /** String.prototype.toLowerCase on ASCII letters. */
  function ToLower(s: string): (r: string)
    ensures |r| == |s|
  {
    seq(|s|, i requires 0 <= i < |s| => LowerChar(s[i]))
  }

  /** String.prototype.toUpperCase on ASCII letters. */
  function ToUpper(s: string): (r: string)
    ensures |r| == |s|
  {
    seq(|s|, i requires 0 <= i < |s| => UpperChar(s[i]))
  }

  /** String.prototype.split with a one-character separator: the pieces
      between occurrences of `sep`, always at least one. */
  function SplitOn(s: string, sep: char): (r: seq<string>)
    ensures |r| >= 1
    ensures forall k :: 0 <= k < |r| ==> sep !in r[k]
    decreases |s|
  {
    if s == [] then [""]
    else
      var rest := SplitOn(s[1..], sep);
      if s[0] == sep then [""] + rest else [[s[0]] + rest[0]] + rest[1..]
  }

  /** Array.prototype.join with the separator string `sep`. */
  function JoinWith(parts: seq<string>, sep: string): string
    decreases |parts|
  {
    if parts == [] then ""
    else if |parts| == 1 then parts[0]
    else parts[0] + sep + JoinWith(parts[1..], sep)
  }

  lemma {:induction false} SplitThenJoin(s: string, sep: char)
    ensures JoinWith(SplitOn(s, sep), [sep]) == s
    decreases |s|
  {
    if s != [] {
      SplitThenJoin(s[1..], sep);
      var rest := SplitOn(s[1..], sep);
      if s[0] != sep {
        if |rest| > 1 {
          assert JoinWith(rest, [sep]) == rest[0] + [sep] + JoinWith(rest[1..], [sep]);
        }
      }
    }
  }

  lemma {:induction false} JoinThenSplit(parts: seq<string>, sep: char)
    requires |parts| >= 1
    requires forall k :: 0 <= k < |parts| ==> sep !in parts[k]
    ensures SplitOn(JoinWith(parts, [sep]), sep) == parts
    decreases |parts|, |parts[0]|
  {
    if |parts| == 1 {
      SplitOfSepFree(parts[0], sep);
    } else if parts[0] == [] {
      JoinThenSplit(parts[1..], sep);
      assert JoinWith(parts, [sep]) == [sep] + JoinWith(parts[1..], [sep]);
      assert ([sep] + JoinWith(parts[1..], [sep]))[1..] == JoinWith(parts[1..], [sep]);
      assert parts == [""] + parts[1..];
    } else {
      var first := parts[0];
      var shorter := [first[1..]] + parts[1..];
      assert sep !in first[1..] by {
        forall i | 0 <= i < |first[1..]| ensures first[1..][i] != sep {
          assert first[1..][i] == first[i + 1];
        }
      }
      JoinThenSplit(shorter, sep);
      assert JoinWith(parts, [sep]) == [first[0]] + JoinWith(shorter, [sep]);
      assert ([first[0]] + JoinWith(shorter, [sep]))[1..] == JoinWith(shorter, [sep]);
      assert first[0] != sep;
      assert [first[0]] + first[1..] == first;
      assert parts == [[first[0]] + shorter[0]] + shorter[1..];
    }
  }

  lemma {:induction false} SplitOfSepFree(s: string, sep: char)
    requires sep !in s
    ensures SplitOn(s, sep) == [s]
    decreases |s|
  {
    if s != [] {
      assert sep !in s[1..] by {
        forall i | 0 <= i < |s[1..]| ensures s[1..][i] != sep {
          assert s[1..][i] == s[i + 1];
        }
      }
      SplitOfSepFree(s[1..], sep);
      assert [s[0]] + s[1..] == s;
    }
  }

  // Small facts about sequences, kept apart so that proofs about the
  // scanners only combine them.

  lemma NotInTail<T>(t: seq<T>, c: T)
    requires t != [] && c !in t
    ensures c !in t[1..] && t[0] != c
  {
    assert t[0] in t;
    forall k | 0 <= k < |t[1..]| ensures t[1..][k] == t[k + 1] { }
  }

  lemma AppendHead<T>(cur: seq<T>, t: seq<T>)
    requires t != []
    ensures cur + [t[0]] + t[1..] == cur + t
  {
    assert t == [t[0]] + t[1..];
  }

  lemma ConcatHead<T>(t: seq<T>, rest: seq<T>)
    requires t != []
    ensures t + rest == [t[0]] + (t[1..] + rest)
  {
    assert t == [t[0]] + t[1..];
  }

  lemma PairConcat<T>(x: T, y: T)
    ensures [x] + [y] == [x, y]
  {
  }

  lemma Regroup<T>(a: seq<T>, b: seq<T>, c: seq<T>, d: seq<T>)
    ensures a + b + c + d == a + (b + c + d)
  {
  }

  lemma Regroup5<T>(a: seq<T>, b: seq<T>, c: seq<T>, d: seq<T>, e: seq<T>)
    ensures a + b + c + d + e == a + (b + (c + (d + e)))
  {
  }

  lemma JoinCons(parts: seq<string>, sep: string)
    requires |parts| >= 1
    ensures JoinWith(parts, sep) == parts[0] + (if |parts| == 1 then "" else sep + JoinWith(parts[1..], sep))
  {
    if |parts| == 1 {
      assert parts[0] + "" == parts[0];
    }
  }

  /** Removes one leading byte-order mark, as `csvData.charCodeAt(0) === 0xFEFF`
      followed by `csvData.slice(1)` does. */
  function StripBom(s: string): (r: string)
    ensures |s| > 0 && s[0] == BOM ==> r == s[1..]
    ensures (|s| == 0 || s[0] != BOM) ==> r == s
  {
    if |s| > 0 && s[0] == BOM then s[1..] else s
  }

  predicate IsDigit(c: char) {
    '0' <= c <= '9'
  }

  predicate AllDigits(s: string) {
    forall i :: 0 <= i < |s| ==> IsDigit(s[i])
  }

  /** The length of the run of decimal digits that starts `s`. */
  function DigitRun(s: string): (n: nat)
    ensures n <= |s| && AllDigits(s[..n])
    ensures n < |s| ==> !IsDigit(s[n])
  {
    if s == [] || !IsDigit(s[0]) then 0 else 1 + DigitRun(s[1..])
  }

  /** The value of a string of decimal digits, most significant first. */
  function DecimalValue(ds: string): nat
    requires AllDigits(ds)
    decreases |ds|
  {
    if ds == [] then 0 else DecimalValue(ds[..|ds| - 1]) * 10 + (ds[|ds| - 1] as int - '0' as int)
  }

  predicate IsHexDigit(c: char) {
    IsDigit(c) || 'a' <= c <= 'f' || 'A' <= c <= 'F'
  }

  predicate AllHexDigits(s: string) {
    forall i :: 0 <= i < |s| ==> IsHexDigit(s[i])
  }

  /** The length of the run of hexadecimal digits that starts `s`. */
  function HexRun(s: string): (n: nat)
    ensures n <= |s| && AllHexDigits(s[..n])
    ensures n < |s| ==> !IsHexDigit(s[n])
  {
    if s == [] || !IsHexDigit(s[0]) then 0 else 1 + HexRun(s[1..])
  }

  function HexDigitValue(c: char): (d: nat)
    requires IsHexDigit(c)
    ensures d < 16
  {
    if IsDigit(c) then c as int - '0' as int
    else if 'a' <= c <= 'f' then c as int - 'a' as int + 10
    else c as int - 'A' as int + 10
  }

  /** The value of a string of hexadecimal digits, most significant first. */
  function HexValue(hs: string): nat
    requires AllHexDigits(hs)
    decreases |hs|
  {
    if hs == [] then 0 else HexValue(hs[..|hs| - 1]) * 16 + HexDigitValue(hs[|hs| - 1])
  }

  /** Whether the text after the sign starts with the `0x` or `0X` prefix that
      makes parseInt without a radix read hexadecimal. */
  predicate HexPrefixed(body: string) {
    |body| >= 2 && body[0] == '0' && (body[1] == 'x' || body[1] == 'X')
  }

  /** The unsigned part of parseInt without a radix: `0x`/`0X` and the longest
      run of hexadecimal digits, or else the longest run of decimal digits;
      None when that run is empty. */
  function ParseMagnitude(body: string): Option<nat> {
    if HexPrefixed(body) then
      var n := HexRun(body[2..]);
      if n == 0 then None else Some(HexValue(body[2..][..n]))
    else
      var n := DigitRun(body);
      if n == 0 then None else Some(DecimalValue(body[..n]))
  }

  /** parseInt(s) without a radix: leading whitespace, an optional sign, then
      the magnitude; None stands for NaN. */
  function ParseInt(s: string): Option<int> {
    var t := TrimStart(s);
    var negative := |t| > 0 && t[0] == '-';
    var body := if |t| > 0 && (t[0] == '-' || t[0] == '+') then t[1..] else t;
    match ParseMagnitude(body)
    case None => None
    case Some(m) => Some(if negative then -(m as int) else m)
  }

  /** `parseInt(s) || fallback`: NaN and 0 are falsy and give the fallback. */
  function ParseIntOr(s: string, fallback: int): (r: int)
    ensures ParseInt(s).Some? && ParseInt(s).value != 0 ==> r == ParseInt(s).value
    ensures ParseInt(s).None? || ParseInt(s).value == 0 ==> r == fallback
    ensures fallback != 0 ==> r != 0
  {
    match ParseInt(s)
    case Some(v) => if v != 0 then v else fallback
    case None => fallback
  }

  function DigitChar(d: nat): (c: char)
    requires d < 10
    ensures IsDigit(c)
  {
    ('0' as int + d) as char
  }

  /** The decimal rendering of a natural number, as `${n}` gives it. */
  function NatToString(n: nat): (r: string)
    ensures |r| >= 1 && AllDigits(r)
    ensures r[0] != '0' || n == 0
    decreases n
  {
    if n < 10 then [DigitChar(n)] else NatToString(n / 10) + [DigitChar(n % 10)]
  }

  lemma {:induction false} NatToStringValue(n: nat)
    ensures DecimalValue(NatToString(n)) == n
    decreases n
  {
    if n >= 10 {
      NatToStringValue(n / 10);
      var r := NatToString(n);
      assert r[..|r| - 1] == NatToString(n / 10);
    }
  }

  lemma {:induction false} DigitRunOfDigits(ds: string)
    requires AllDigits(ds)
    ensures DigitRun(ds) == |ds|
    decreases |ds|
  {
    if ds != [] {
      DigitRunOfDigits(ds[1..]);
    }
  }

  /** parseInt of a non-empty run of digits is the value of that run. */
  lemma ParseIntOfDigits(ds: string)
    requires |ds| >= 1 && AllDigits(ds)
    ensures ParseInt(ds) == Some(DecimalValue(ds))
  {
    DigitRunOfDigits(ds);
    assert !IsSpace(ds[0]) && ds[0] != '-' && ds[0] != '+';
    assert ds[..|ds|] == ds;
  }

  /** Rendering a number and parsing it back with parseInt gives the number. */
  lemma NatToStringParses(n: nat)
    ensures ParseInt(NatToString(n)) == Some(n)
  {
    ParseIntOfDigits(NatToString(n));
    NatToStringValue(n);
  }

  lemma {:induction false} HexRunOfHexDigits(hs: string)
    requires AllHexDigits(hs)
    ensures HexRun(hs) == |hs|
    decreases |hs|
  {
    if hs != [] {
      HexRunOfHexDigits(hs[1..]);
    }
  }

  lemma HexMagnitude(x: char, hs: string)
    requires x == 'x' || x == 'X'
    requires |hs| >= 1 && AllHexDigits(hs)
    ensures ParseMagnitude(['0', x] + hs) == Some(HexValue(hs))
  {
    HexRunOfHexDigits(hs);
    var p := ['0', x] + hs;
    assert HexPrefixed(p) && p[2..] == hs;
    assert hs[..|hs|] == hs;
  }

  /** With no radix, parseInt reads `0x` or `0X` followed by hexadecimal digits
      as a hexadecimal number. */
  lemma ParseIntOfHex(x: char, hs: string)
    requires x == 'x' || x == 'X'
    requires |hs| >= 1 && AllHexDigits(hs)
    ensures ParseInt(['0', x] + hs) == Some(HexValue(hs))
  {
    HexMagnitude(x, hs);
    var p := ['0', x] + hs;
    assert TrimStart(p) == p;
  }

  /** A leading minus sign negates the magnitude read after it. */
  lemma ParseIntNegated(body: string)
    ensures ParseMagnitude(body).None? ==> ParseInt(['-'] + body) == None
    ensures ParseMagnitude(body).Some? ==>
      ParseInt(['-'] + body) == Some(-(ParseMagnitude(body).value as int))
  {
    var m := ['-'] + body;
    assert TrimStart(m) == m;
    assert m[1..] == body;
  }

  /** A `0x` prefix with no hexadecimal digit after it is NaN, where radix 10
      would have read the leading 0. */
  lemma ParseIntOfBarePrefix(x: char, rest: string)
    requires x == 'x' || x == 'X'
    requires |rest| == 0 || !IsHexDigit(rest[0])
    ensures ParseInt(['0', x] + rest) == None
  {
    var p := ['0', x] + rest;
    assert !IsSpace(p[0]) && p[2..] == rest;
  }

  /** Math.ceil(count / perPage) for a positive page size. */
  function CeilDiv(count: nat, per: nat): (r: nat)
    requires per > 0
    ensures r * per >= count
    ensures r > 0 ==> (r - 1) * per < count
    ensures r == 0 <==> count == 0
  {
    (count + per - 1) / per
  }

  /** More rows never mean fewer pages. */
  lemma CeilDivMono(a: nat, b: nat, per: nat)
    requires per > 0 && a <= b
    ensures CeilDiv(a, per) <= CeilDiv(b, per)
  {
    var ca, cb := CeilDiv(a, per), CeilDiv(b, per);
    if ca > cb {
      MulLe(cb, ca - 1, per);
      assert false;
    }
  }

  lemma MulLe(a: nat, b: nat, per: nat)
    requires a <= b
    ensures a * per <= b * per
  {
  }

  /** Each part followed by `sep`, as a loop of `content += part + sep`
      writes them. */
  function Terminated(parts: seq<string>, sep: string): string
    decreases |parts|
  {
    if parts == [] then "" else Terminated(parts[..|parts| - 1], sep) + parts[|parts| - 1] + sep
  }

  /** One more part terminated, as one more turn of the loop writes it. */
  lemma TerminatedSnoc(parts: seq<string>, i: nat, sep: string)
    requires i < |parts|
    ensures Terminated(parts[..i + 1], sep) == Terminated(parts[..i], sep) + parts[i] + sep
  {
    assert parts[..i + 1][..i] == parts[..i];
  }

  lemma {:induction false} JoinSnoc(xs: seq<string>, y: string, sep: string)
    requires |xs| >= 1
    ensures JoinWith(xs + [y], sep) == JoinWith(xs, sep) + sep + y
    decreases |xs|
  {
    var ys := xs + [y];
    JoinCons(ys, sep);
    assert ys[1..] == xs[1..] + [y];
    if |xs| == 1 {
      assert ys[1..] == [y];
    } else {
      JoinSnoc(xs[1..], y, sep);
      JoinCons(xs, sep);
      Regroup(xs[0], sep, JoinWith(xs[1..], sep), sep + y);
      assert xs[0] + sep + JoinWith(xs[1..], sep) + sep + y == xs[0] + sep + (JoinWith(xs[1..], sep) + sep + y);
    }
  }

  /** Terminating every part is joining them with one empty part after the
      last: the text ends with `sep`. */
  lemma {:induction false} TerminatedIsJoin(parts: seq<string>, sep: string)
    ensures Terminated(parts, sep) == JoinWith(parts + [""], sep)
    decreases |parts|
  {
    if parts != [] {
      var init, last := parts[..|parts| - 1], parts[|parts| - 1];
      TerminatedIsJoin(init, sep);
      assert parts + [""] == (init + [last]) + [""];
      assert parts == init + [last];
      JoinSnoc(init + [last], "", sep);
      if init == [] {
        assert init + [last] == [last];
        assert init + [""] == [""];
      } else {
        JoinSnoc(init, last, sep);
        JoinSnoc(init, "", sep);
      }
    }
  }
}
