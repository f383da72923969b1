/**
 * The control records rcp exchanges (usr/src/bin/rcp/rcp.c): the header
 * source() and rsource() write before a file or a directory, the parser
 * sink() runs on each record it reads, and the BUFSIZ chunking of both
 * transfer loops.
 */
module RcpProtocol {
  import opened Options
  import opened RcpNames

  /** BUFSIZ of the 4.2BSD stdio the program is built with. */
  const BUFSIZ: nat := 1024

  // ---------------------------------------------------------------------
  // digits
  // ---------------------------------------------------------------------

  predicate IsOctalDigit(c: char) {
    '0' <= c <= '7'
  }

  function DigitValue(c: char): nat
    requires IsDigit(c)
  {
    c as int - '0' as int
  }

  function DigitChar(d: nat): (c: char)
    requires d < 10
    ensures IsDigit(c) && DigitValue(c) == d
    ensures d < 8 ==> IsOctalDigit(c)
  {
    ('0' as int + d) as char
  }

  predicate AllDigits(s: string) {
    forall k :: 0 <= k < |s| ==> IsDigit(s[k])
  }

  /** The number a run of digits denotes in `radix`, accumulated left to right as sink() does. */
  function DigitsValue(s: string, radix: nat): nat
    requires AllDigits(s)
  {
    if s == [] then 0 else DigitsValue(s[..|s| - 1], radix) * radix + DigitValue(s[|s| - 1])
  }

  lemma DigitsValueSnoc(s: string, c: char, radix: nat)
    requires AllDigits(s) && IsDigit(c)
    ensures AllDigits(s + [c])
    ensures DigitsValue(s + [c], radix) == DigitsValue(s, radix) * radix + DigitValue(c)
  {
    assert (s + [c])[..|s|] == s;
  }

  /** printf's %d (and 4.2BSD's %D) of a non-negative number: its decimal digits, no leading zero. */
  function Decimal(n: nat): (r: string)
    ensures |r| > 0 && AllDigits(r)
    ensures r[0] == '0' <==> n == 0
    ensures DigitsValue(r, 10) == n
    decreases n
  {
    if n < 10 then [DigitChar(n)]
    else
      var r := Decimal(n / 10) + [DigitChar(n % 10)];
      DigitsValueSnoc(Decimal(n / 10), DigitChar(n % 10), 10);
      r
  }

  /** printf's %04o of a permission value below 010000: exactly four octal digits. */
  function Octal4(m: nat): (r: string)
    requires m < 4096
    ensures |r| == 4 && forall k :: 0 <= k < 4 ==> IsOctalDigit(r[k])
    ensures AllDigits(r) && DigitsValue(r, 8) == m
  {
    var q1 := m / 8;
    var q2 := q1 / 8;
    var r := [DigitChar(q2 / 8), DigitChar(q2 % 8), DigitChar(q1 % 8), DigitChar(m % 8)];
    assert r[..1] == [r[0]] && r[..2] == r[..1] + [r[1]] && r[..3] == r[..2] + [r[2]] && r == r[..3] + [r[3]];
    DigitsValueSnoc([], r[0], 8);
    DigitsValueSnoc(r[..1], r[1], 8);
    DigitsValueSnoc(r[..2], r[2], 8);
    DigitsValueSnoc(r[..3], r[3], 8);
    r
  }

  /** The length of the run of decimal digits that starts s. */
  function DigitRun(s: string): (n: nat)
    ensures n <= |s| && AllDigits(s[..n])
    ensures n == |s| || !IsDigit(s[n])
  {
    if s == [] || !IsDigit(s[0]) then 0
    else
      var n := 1 + DigitRun(s[1..]);
      assert s[..n] == [s[0]] + s[1..][..n - 1];
      n
  }

  /** Any prefix of digits followed by a non-digit (or the end) is the run. */
  lemma {:induction false} DigitRunUnique(s: string, n: nat)
    requires n <= |s| && AllDigits(s[..n])
    requires n == |s| || !IsDigit(s[n])
    ensures DigitRun(s) == n
  {
    if n > 0 {
      assert s[0] == s[..n][0];
      assert s[1..][..n - 1] == s[..n][1..];
      DigitRunUnique(s[1..], n - 1);
    }
  }

  // ---------------------------------------------------------------------
  // the control records
  // ---------------------------------------------------------------------

  datatype HeaderKind = File | Directory

  /** 'C' announces a file, 'D' a directory. */
  function KindChar(kind: HeaderKind): char {
    if kind == File then 'C' else 'D'
  }

  /** mode & 07777: the permission bits. */
  function PermissionBits(mode: nat): (p: nat)
    ensures p < 4096
  {
    mode % 4096
  }

  /**
   * The record source() writes as "C%04o %D %s" and rsource() as
   * "D%04o %d %s" with size 0, without the newline that ends it.
   */
  function HeaderLine(kind: HeaderKind, mode: nat, size: nat, name: string): string {
    [KindChar(kind)] + Octal4(PermissionBits(mode)) + " " + Decimal(size) + " " + name
  }

  /** The text of a C string: the characters before the first NUL. */
  function CText(s: string): (r: string)
    ensures '\0' !in r
    ensures r == s || (|r| < |s| && s[|r|] == '\0' && r == s[..|r|])
    ensures '\0' !in s ==> r == s
  {
    match IndexOf(s, '\0')
    case None => s
    case Some(k) => s[..k]
  }

  /** The ways sink() declares a "protocol screwup". */
  datatype ProtocolError =
    | UnexpectedNewline       // the record is an empty line
    | ExpectedControlRecord   // not 'C', 'D', 'E', \1 or \2, after the first record
    | BadMode                 // fewer than four octal digits after the letter
    | ModeNotDelimited        // no space after the mode
    | SizeNotDelimited        // no space after the size digits

  /** How sink() treats one record. */
  datatype Control =
    | RemoteWarning(message: string)   // \1: an error message; counted, and reading goes on
    | RemoteFatal(message: string)     // \2: an error message, then exit(1)
    | EndOfDirectory                   // 'E'
    | StrayOutput(text: string)        // the first record is no control record: printed, exit(1)
    | Screwup(why: ProtocolError)      // "protocol screwup", exit(1)
    | Header(kind: HeaderKind, mode: nat, size: nat, name: string)

  /** Whether the four characters after the record's letter are octal digits. */
  predicate ModeDigits(line: string) {
    |line| >= 5 && forall k :: 1 <= k < 5 ==> IsOctalDigit(line[k])
  }

  /**
   * sink()'s reading of a record, given without its newline; `first` tells
   * whether it is the first record of the transfer.
   */
  function ParseControl(line: string, first: bool): Control {
    if |line| == 0 then Screwup(UnexpectedNewline)
    else if line[0] == 1 as char then RemoteWarning(CText(line[1..] + "\n"))
    else if line[0] == 2 as char then RemoteFatal(CText(line[1..] + "\n"))
    else if line[0] == 'E' then EndOfDirectory
    else if line[0] != 'C' && line[0] != 'D' then
      (if first then StrayOutput(CText(line)) else Screwup(ExpectedControlRecord))
    else if !ModeDigits(line) then Screwup(BadMode)
    else if |line| == 5 || line[5] != ' ' then Screwup(ModeNotDelimited)
    else
      var n := DigitRun(line[6..]);
      if 6 + n == |line| || line[6 + n] != ' ' then Screwup(SizeNotDelimited)
      else
        assert forall k :: 1 <= k < 5 ==> line[1..5][k - 1] == line[k];
        assert line[6..6 + n] == line[6..][..n];
        Header(if line[0] == 'C' then File else Directory,
               DigitsValue(line[1..5], 8), DigitsValue(line[6..6 + n], 10), CText(line[7 + n..]))
  }

  /**
   * sink()'s loop body up to the file name: classify the record, then read
   * the mode octal digit by octal digit and the size decimal digit by decimal
   * digit. The newline has been replaced by a NUL, which stops every scan.
   */
  method ParseRecord(line: string, first: bool) returns (c: Control)
    ensures c == ParseControl(line, first)
  {
    if |line| == 0 {
      return Screwup(UnexpectedNewline);
    }
    if line[0] == 1 as char || line[0] == 2 as char {
      var message := CText(line[1..] + "\n");
      return if line[0] == 2 as char then RemoteFatal(message) else RemoteWarning(message);
    }
    if line[0] == 'E' {
      return EndOfDirectory;
    }
    if line[0] != 'C' && line[0] != 'D' {
      return if first then StrayOutput(CText(line)) else Screwup(ExpectedControlRecord);
    }
    var ok, mode := ReadMode(line);
    if !ok {
      return Screwup(BadMode);
    }
    var cmdbuf := line + ['\0'];
    if cmdbuf[5] != ' ' {
      return Screwup(ModeNotDelimited);
    }
    var cp, size := ReadSize(line);
    if cmdbuf[cp] != ' ' {
      return Screwup(SizeNotDelimited);
    }
    cp := cp + 1;
    return Header(if line[0] == 'C' then File else Directory, mode, size, CText(line[cp..]));
  }

  /** The mode loop of sink(): four octal digits after the letter, accumulated by shifting in three bits at a time. */
  method ReadMode(line: string) returns (ok: bool, mode: nat)
    requires |line| >= 1
    ensures ok <==> ModeDigits(line)
    ensures ok ==> mode == DigitsValue(line[1..5], 8)
  {
    var cmdbuf := line + ['\0'];
    var cp := 1;
    mode := 0;
    while cp < 5
      invariant 1 <= cp <= 5 && cp <= |line|
      invariant forall k :: 1 <= k < cp ==> IsOctalDigit(line[k])
      invariant AllDigits(line[1..cp]) && mode == DigitsValue(line[1..cp], 8)
    {
      if cmdbuf[cp] < '0' || cmdbuf[cp] > '7' {
        return false, mode;
      }
      assert line[1..cp + 1] == line[1..cp] + [line[cp]];
      DigitsValueSnoc(line[1..cp], line[cp], 8);
      mode := mode * 8 + (cmdbuf[cp] as int - '0' as int);
      cp := cp + 1;
    }
    return true, mode;
  }

  /** The size loop of sink(): decimal digits from offset 6 up to the first non-digit, where `cp` stops. */
  method ReadSize(line: string) returns (cp: nat, size: nat)
    requires |line| >= 6
    ensures cp == 6 + DigitRun(line[6..]) && cp <= |line|
    ensures AllDigits(line[6..cp]) && size == DigitsValue(line[6..cp], 10)
  {
    var cmdbuf := line + ['\0'];
    cp := 6;
    size := 0;
    while IsDigit(cmdbuf[cp])
      invariant 6 <= cp <= |line|
      invariant AllDigits(line[6..cp]) && size == DigitsValue(line[6..cp], 10)
      decreases |line| - cp
    {
      assert line[6..cp + 1] == line[6..cp] + [line[cp]];
      DigitsValueSnoc(line[6..cp], line[cp], 10);
      size := size * 10 + (cmdbuf[cp] as int - '0' as int);
      cp := cp + 1;
    }
    assert line[6..][..cp - 6] == line[6..cp];
    DigitRunUnique(line[6..], cp - 6);
  }

  /**
   * What sink() reads back from the record source() or rsource() wrote is
   * what was written: the kind, the permission bits, the size and the name.
   * The record ends at its newline, so the name must not hold one.
   */
  lemma HeaderRoundTrip(kind: HeaderKind, mode: nat, size: nat, name: string, first: bool)
    requires '\n' !in name && '\0' !in name
    ensures '\n' !in HeaderLine(kind, mode, size, name)
    ensures ParseControl(HeaderLine(kind, mode, size, name), first) == Header(kind, PermissionBits(mode), size, name)
  {
    var o := Octal4(PermissionBits(mode));
    var d := Decimal(size);
    var line := HeaderLine(kind, mode, size, name);
    assert line == [KindChar(kind)] + o + [' '] + d + [' '] + name;
    assert line[1..5] == o;
    assert line[5] == ' ';
    assert line[6..] == d + [' '] + name;
    assert line[6..][..|d|] == d;
    DigitRunUnique(line[6..], |d|);
    assert line[6..6 + |d|] == d;
    assert line[6 + |d|] == ' ';
    assert line[7 + |d|..] == name;
    forall k | 0 <= k < |line| ensures line[k] != '\n' {
      if k >= 7 + |d| {
        assert line[k] == name[k - 7 - |d|];
      } else if 6 <= k < 6 + |d| {
        assert line[k] == d[k - 6];
      } else if 1 <= k < 5 {
        assert line[k] == o[k - 1];
      }
    }
  }

  // ---------------------------------------------------------------------
  // the transfer loops
  // ---------------------------------------------------------------------

  function Sum(s: seq<nat>): nat {
    if s == [] then 0 else Sum(s[..|s| - 1]) + s[|s| - 1]
  }

  /**
   * The amounts the transfer loops of source() and sink() move: for
   * i = 0, BUFSIZ, 2 BUFSIZ, ... below size, min(BUFSIZ, size - i).
   */
  method ChunkSizes(size: nat) returns (chunks: seq<nat>)
    ensures Sum(chunks) == size
    ensures forall k :: 0 <= k < |chunks| ==> 0 < chunks[k] <= BUFSIZ
    ensures forall k :: 0 <= k < |chunks| - 1 ==> chunks[k] == BUFSIZ
    ensures |chunks| == (size + BUFSIZ - 1) / BUFSIZ
  {
    chunks := [];
    var i := 0;
    while i < size
      invariant i == |chunks| * BUFSIZ
      invariant i < size + BUFSIZ
      invariant Sum(chunks) == if i <= size then i else size
      invariant forall k :: 0 <= k < |chunks| ==> 0 < chunks[k] <= BUFSIZ
      invariant forall k :: 0 <= k < |chunks| - 1 ==> chunks[k] == BUFSIZ
      invariant i <= size ==> forall k :: 0 <= k < |chunks| ==> chunks[k] == BUFSIZ
    {
      var amt := BUFSIZ;
      if i + amt > size {
        amt := size - i;
      }
      assert (chunks + [amt])[..|chunks|] == chunks;
      chunks := chunks + [amt];
      i := i + BUFSIZ;
    }
  }

  /** Chunk k of a transfer starts at offset k * BUFSIZ: the value of i in that pass of the loop. */
  lemma {:induction false} ChunkOffsets(chunks: seq<nat>, k: nat)
    requires k <= |chunks|
    requires forall j :: 0 <= j < |chunks| - 1 ==> chunks[j] == BUFSIZ
    requires k < |chunks| || k == 0 || chunks[k - 1] == BUFSIZ
    ensures Sum(chunks[..k]) == k * BUFSIZ
  {
    if k > 0 {
      assert chunks[..k][..k - 1] == chunks[..k - 1];
      ChunkOffsets(chunks, k - 1);
    }
  }
}
