/** Parsing of the GPU query tool's output into `(index, temperature,
    fan speed)` readings.

    The tool prints one line per GPU of the form `<d+>, <d+>, <d+> %`. The
    pattern the program searches for cannot match a newline, so no reading
    spans two lines; the model splits the text into lines and accepts a line
    exactly when it has that canonical form. */
module Measurements {
  import opened Options

  /** One GPU's reading. */
  datatype Reading = Reading(index: nat, temperature: nat, fanSpeed: nat)

  predicate IsDigit(ch: char)
  {
    '0' <= ch <= '9'
  }

  predicate AllDigits(s: string)
  {
    forall k :: 0 <= k < |s| ==> IsDigit(s[k])
  }

  function DigitValue(ch: char): nat
    requires IsDigit(ch)
  {
    ch as int - '0' as int
  }

  function DigitChar(d: nat): (ch: char)
    requires d < 10
    ensures IsDigit(ch) && DigitValue(ch) == d
  {
    ('0' as int + d) as char
  }

  function Pow10(n: nat): (p: nat)
    ensures p >= 1
  {
    if n == 0 then 1 else 10 * Pow10(n - 1)
  }

  /** The decimal value of a digit string, most significant digit first;
      leading zeros are allowed. A string of `n` digits denotes a number
      below `10^n`. */
  function Value(s: string): (v: nat)
    requires AllDigits(s)
    ensures v < Pow10(|s|)
    decreases |s|
  {
    if |s| == 0 then 0 else Value(s[..|s| - 1]) * 10 + DigitValue(s[|s| - 1])
  }

  /** The shortest decimal rendering of `n`. */
  function Show(n: nat): (s: string)
    ensures |s| > 0 && AllDigits(s)
  {
    if n < 10 then [DigitChar(n)] else Show(n / 10) + [DigitChar(n % 10)]
  }

  /** The length of the longest run of digits at the front of `s`. */
  function DigitSpan(s: string): (k: nat)
    ensures k <= |s|
    ensures AllDigits(s[..k])
    ensures k < |s| ==> !IsDigit(s[k])
    decreases |s|
  {
    if |s| > 0 && IsDigit(s[0]) then 1 + DigitSpan(s[1..]) else 0
  }

  /** A non-empty run of digits followed by `sep`: its value and what
      follows the separator. */
  function Field(s: string, sep: string): Option<(nat, string)>
  {
    var k := DigitSpan(s);
    if k == 0 || !(sep <= s[k..]) then None
    else Some((Value(s[..k]), s[k + |sep|..]))
  }

  /** One line of the tool's output, or `None` when it is not of the form
      `<d+>, <d+>, <d+> %`. */
  function ParseLine(line: string): Option<Reading>
  {
    match Field(line, ", ")
    case None => None
    case Some((index, rest1)) =>
      match Field(rest1, ", ")
      case None => None
      case Some((temperature, rest2)) =>
        match Field(rest2, " %")
        case None => None
        case Some((fanSpeed, rest3)) =>
          if rest3 == [] then Some(Reading(index, temperature, fanSpeed)) else None
  }

  /** The line whose three digit runs are `a`, `b` and `c`. */
  function Join(a: string, b: string, c: string): string
  {
    a + (", " + (b + (", " + (c + " %"))))
  }

  /** The line the tool prints for one reading. */
  function Format(r: Reading): string
  {
    Join(Show(r.index), Show(r.temperature), Show(r.fanSpeed))
  }

  /** The text split at every newline; a final newline leaves an empty last
      line. */
  function SplitLines(s: string): (ls: seq<string>)
    ensures |ls| >= 1
    ensures forall k :: 0 <= k < |ls| ==> '\n' !in ls[k]
    decreases |s|
  {
    if |s| == 0 then [""]
    else
      var rest := SplitLines(s[1..]);
      if s[0] == '\n' then [""] + rest
      else [[s[0]] + rest[0]] + rest[1..]
  }

  /** Lines put back together with a newline between neighbours. */
  function JoinLines(ls: seq<string>): string
    requires |ls| >= 1
    decreases |ls|
  {
    if |ls| == 1 then ls[0] else ls[0] + "\n" + JoinLines(ls[1..])
  }

  /** The readings of the lines that parse, in order. */
  function Collect(lines: seq<string>): (rs: seq<Reading>)
    ensures |rs| <= |lines|
    ensures forall r :: r in rs ==> exists j :: 0 <= j < |lines| && ParseLine(lines[j]) == Some(r)
    ensures forall j :: 0 <= j < |lines| && ParseLine(lines[j]).Some? ==> ParseLine(lines[j]).value in rs
    decreases |lines|
  {
    if |lines| == 0 then []
    else
      var rest := Collect(lines[1..]);
      match ParseLine(lines[0])
      case Some(r) => [r] + rest
      case None => rest
  }

  /** All readings in the tool's output. */
  function ParseOutput(stdout: string): seq<Reading>
  {
    Collect(SplitLines(stdout))
  }

  /** The tool's output for the given readings: one line each, every line
      ending in a newline. */
  function Render(rs: seq<Reading>): string
    decreases |rs|
  {
    if |rs| == 0 then "" else Format(rs[0]) + "\n" + Render(rs[1..])
  }

  // ---------------------------------------------------------------- lemmas

  /** Rendering then reading back a number gives the number. */
  lemma {:induction false} ValueOfShow(n: nat)
    ensures Value(Show(n)) == n
  {
    if n >= 10 {
      var s := Show(n);
      assert s[..|s| - 1] == Show(n / 10);
      ValueOfShow(n / 10);
    }
  }

  /** A digit run stops at the first character that is not a digit. */
  lemma {:induction false} DigitSpanOfDigitsThen(a: string, t: string)
    requires AllDigits(a)
    requires |t| > 0 && !IsDigit(t[0])
    ensures DigitSpan(a + t) == |a|
  {
    var s := a + t;
    assert forall j :: 0 <= j < |a| ==> s[j] == a[j];
    assert s[|a|] == t[0];
  }

  /** A field made of a digit run and a separator that starts with a
      non-digit is read back exactly. */
  lemma {:induction false} FieldOfJoin(a: string, sep: string, rest: string)
    requires |a| > 0 && AllDigits(a)
    requires |sep| > 0 && !IsDigit(sep[0])
    ensures Field(a + (sep + rest), sep) == Some((Value(a), rest))
  {
    var s := a + (sep + rest);
    DigitSpanOfDigitsThen(a, sep + rest);
    var k := DigitSpan(s);
    assert k == |a|;
    assert s[..k] == a;
    assert s[k..] == sep + rest;
    assert sep <= s[k..];
    assert s[k + |sep|..] == rest;
  }

  /** Any line made of three non-empty digit runs in the canonical form
      parses to their values, leading zeros included. */
  lemma {:induction false} ParseJoin(a: string, b: string, c: string)
    requires |a| > 0 && AllDigits(a)
    requires |b| > 0 && AllDigits(b)
    requires |c| > 0 && AllDigits(c)
    ensures ParseLine(Join(a, b, c)) == Some(Reading(Value(a), Value(b), Value(c)))
  {
    var rest2 := c + " %";
    var rest1 := b + (", " + rest2);
    FieldOfJoin(a, ", ", rest1);
    FieldOfJoin(b, ", ", rest2);
    assert " %" + [] == " %";
    FieldOfJoin(c, " %", []);
  }

  /** A field that reads is a digit run followed by the separator. */
  lemma {:induction false} FieldShape(s: string, sep: string) returns (a: string)
    requires Field(s, sep).Some?
    ensures |a| > 0 && AllDigits(a)
    ensures s == a + (sep + Field(s, sep).value.1)
    ensures Field(s, sep).value.0 == Value(a)
  {
    var k := DigitSpan(s);
    a := s[..k];
    assert s[k..] == sep + s[k + |sep|..];
    assert s == s[..k] + s[k..];
  }

  /** A line that parses is three fields in a row, the last followed by
      nothing. */
  lemma {:induction false} ParsedFields(line: string) returns (rest1: string, rest2: string)
    requires ParseLine(line).Some?
    ensures Field(line, ", ") == Some((ParseLine(line).value.index, rest1))
    ensures Field(rest1, ", ") == Some((ParseLine(line).value.temperature, rest2))
    ensures Field(rest2, " %") == Some((ParseLine(line).value.fanSpeed, []))
  {
    rest1 := Field(line, ", ").value.1;
    rest2 := Field(rest1, ", ").value.1;
  }

  /** Every line that parses is of the canonical form, and the reading holds
      the values of its three digit runs. */
  lemma {:induction false} ParsedLineShape(line: string) returns (a: string, b: string, c: string)
    requires ParseLine(line).Some?
    ensures |a| > 0 && AllDigits(a) && |b| > 0 && AllDigits(b) && |c| > 0 && AllDigits(c)
    ensures line == Join(a, b, c)
    ensures ParseLine(line) == Some(Reading(Value(a), Value(b), Value(c)))
  {
    var rest1, rest2 := ParsedFields(line);
    a := FieldShape(line, ", ");
    b := FieldShape(rest1, ", ");
    c := FieldShape(rest2, " %");
    assert " %" + [] == " %";
    assert rest2 == c + " %";
    assert rest1 == b + (", " + rest2);
  }

  /** A line that yields a reading ends in `" %"`: a line lacking that
      suffix yields none. */
  lemma {:induction false} ParsedLineEndsWithPercent(line: string)
    ensures ParseLine(line).Some? ==> |line| >= 2 && line[|line| - 2..] == " %"
  {
  }

  /** A line that yields a reading has `", "` right after its first digit
      run: a line lacking that separator yields none. */
  lemma {:induction false} ParsedLineHasSeparator(line: string)
    ensures ParseLine(line).Some? ==>
              var k := DigitSpan(line);
              0 < k && k + 2 <= |line| && line[k..k + 2] == ", "
  {
  }

  /** A reading printed by the tool is read back unchanged. */
  lemma {:induction false} ParseFormat(r: Reading)
    ensures ParseLine(Format(r)) == Some(r)
  {
    ValueOfShow(r.index);
    ValueOfShow(r.temperature);
    ValueOfShow(r.fanSpeed);
    ParseJoin(Show(r.index), Show(r.temperature), Show(r.fanSpeed));
  }

  /** A line without a newline is split off the front of the text whole. */
  lemma {:induction false} SplitLinesCons(l: string, t: string)
    requires '\n' !in l
    ensures SplitLines(l + "\n" + t) == [l] + SplitLines(t)
    decreases |l|
  {
    if |l| > 0 {
      assert (l + "\n" + t)[1..] == l[1..] + "\n" + t;
      SplitLinesCons(l[1..], t);
      assert [l[0]] + l[1..] == l;
    } else {
      assert l + "\n" + t == "\n" + t;
    }
  }

  /** Text without a newline is one line. */
  lemma {:induction false} SplitLinesSingle(l: string)
    requires '\n' !in l
    ensures SplitLines(l) == [l]
    decreases |l|
  {
    if |l| > 0 {
      SplitLinesSingle(l[1..]);
      assert [l[0]] + l[1..] == l;
    }
  }

  /** Joining the split lines gives back the text. */
  lemma {:induction false} JoinSplit(s: string)
    ensures JoinLines(SplitLines(s)) == s
    decreases |s|
  {
    if |s| > 0 {
      JoinSplit(s[1..]);
      var rest := SplitLines(s[1..]);
      if s[0] != '\n' {
        if |rest| > 1 {
          assert JoinLines(rest) == rest[0] + "\n" + JoinLines(rest[1..]);
        }
        assert s == [s[0]] + s[1..];
      } else {
        assert s == "\n" + s[1..];
      }
    }
  }

  /** Splitting joined lines gives back the lines. */
  lemma {:induction false} SplitJoin(ls: seq<string>)
    requires |ls| >= 1
    requires forall k :: 0 <= k < |ls| ==> '\n' !in ls[k]
    ensures SplitLines(JoinLines(ls)) == ls
    decreases |ls|
  {
    if |ls| == 1 {
      SplitLinesSingle(ls[0]);
    } else {
      SplitJoin(ls[1..]);
      SplitLinesCons(ls[0], JoinLines(ls[1..]));
    }
  }

  /** Printed lines contain no newline. */
  lemma {:induction false} FormatHasNoNewline(r: Reading)
    ensures '\n' !in Format(r)
  {
  }

  /** A line that parses contributes its reading in front of the rest. */
  lemma {:induction false} CollectCons(l: string, ls: seq<string>, r: Reading)
    requires ParseLine(l) == Some(r)
    ensures Collect([l] + ls) == [r] + Collect(ls)
  {
  }

  /** Collecting over two blocks of lines is collecting over each block in
      turn: readings keep the order of their lines. */
  lemma {:induction false} CollectAppend(a: seq<string>, b: seq<string>)
    ensures Collect(a + b) == Collect(a) + Collect(b)
    decreases |a|
  {
    if |a| == 0 {
      assert a + b == b;
    } else {
      assert (a + b)[0] == a[0];
      assert (a + b)[1..] == a[1..] + b;
      CollectAppend(a[1..], b);
    }
  }

  /** One line contributes exactly its reading when it parses, and nothing
      when it does not. */
  lemma {:induction false} CollectSingle(l: string)
    ensures ParseLine(l).Some? ==> Collect([l]) == [ParseLine(l).value]
    ensures ParseLine(l).None? ==> Collect([l]) == []
  {
    assert [l][1..] == [];
  }

  /** The first printed line yields the first reading, ahead of whatever
      the remaining output yields. */
  lemma {:induction false} ParseRenderCons(rs: seq<Reading>)
    requires |rs| > 0
    ensures ParseOutput(Render(rs)) == [rs[0]] + ParseOutput(Render(rs[1..]))
  {
    var l, t := Format(rs[0]), Render(rs[1..]);
    assert Render(rs) == l + "\n" + t;
    FormatHasNoNewline(rs[0]);
    SplitLinesCons(l, t);
    ParseFormat(rs[0]);
    CollectCons(l, SplitLines(t), rs[0]);
  }

  /** The readings the tool prints are exactly the readings parsed back
      from its output, in the same order. */
  lemma {:induction false} ParseRender(rs: seq<Reading>)
    ensures ParseOutput(Render(rs)) == rs
    decreases |rs|
  {
    if |rs| > 0 {
      ParseRenderCons(rs);
      ParseRender(rs[1..]);
      assert rs == [rs[0]] + rs[1..];
    } else {
      assert SplitLines("") == [""];
      assert ParseLine("") == None;
    }
  }
}
