/** `datetime.strptime` and `strftime` for the directives the ARM handler's
    date formats use (`%Y %m %d %H %M %S %%`), and the handler's
    `date_parser`, which tries a fixed list of formats in order. */
module Dates {
  import opened Wrappers
  import opened Strings
  import opened Values
  import opened Errors
  import opened Calendar

  // ---------------------------------------------------------------------
  // Format strings
  // ---------------------------------------------------------------------

  datatype FieldKind = Year | Month | Day | Hour | Minute | Second

  /** One element of a compiled format: a field or a literal character. */
  datatype Directive = Field(kind: FieldKind) | Lit(c: char)

  type Format = seq<Directive>

  function Letter(k: FieldKind): char {
    match k
    case Year => 'Y'
    case Month => 'm'
    case Day => 'd'
    case Hour => 'H'
    case Minute => 'M'
    case Second => 'S'
  }

  function KindOfLetter(c: char): (r: Option<FieldKind>)
    ensures r.Some? ==> Letter(r.value) == c
    ensures forall k :: Letter(k) == c ==> r == Some(k)
  {
    match c
    case 'Y' => Some(Year)
    case 'm' => Some(Month)
    case 'd' => Some(Day)
    case 'H' => Some(Hour)
    case 'M' => Some(Minute)
    case 'S' => Some(Second)
    case _ => None
  }

  /** The format text `strptime` is given, split into directives: `%%` is a
      literal `%`; a `%` at the end or before a letter outside the modelled
      set makes `strptime` raise `ValueError`, here `None`. */
  function CompileFormat(text: string): (r: Option<Format>)
  {
    if |text| == 0 then Some([])
    else if text[0] != '%' then
      match CompileFormat(text[1..])
      case None => None
      case Some(rest) => Some([Lit(text[0])] + rest)
    else if |text| == 1 then None
    else if text[1] == '%' then
      match CompileFormat(text[2..])
      case None => None
      case Some(rest) => Some([Lit('%')] + rest)
    else
      match KindOfLetter(text[1])
      case None => None
      case Some(k) =>
        match CompileFormat(text[2..])
        case None => None
        case Some(rest) => Some([Field(k)] + rest)
  }

  /** The format text of a compiled format: a literal `%` is written `%%`. */
  function FormatText(f: Format): string {
    if |f| == 0 then ""
    else
      (match f[0]
       case Field(k) => ['%', Letter(k)]
       case Lit(c) => if c == '%' then "%%" else [c])
      + FormatText(f[1..])
  }

  lemma {:induction false} FormatTextAppend(f: Format, g: Format)
    ensures FormatText(f + g) == FormatText(f) + FormatText(g)
  {
    if |f| > 0 {
      FormatTextAppend(f[1..], g);
      assert (f + g)[1..] == f[1..] + g;
    } else {
      assert f + g == g;
    }
  }

  /** Writing a format out and compiling it gives the format back. */
  lemma {:induction false} CompileFormatText(f: Format)
    ensures CompileFormat(FormatText(f)) == Some(f)
  {
    if |f| > 0 {
      CompileFormatText(f[1..]);
      var head := match f[0]
        case Field(k) => ['%', Letter(k)]
        case Lit(c) => if c == '%' then "%%" else [c];
      var text := FormatText(f);
      assert text == head + FormatText(f[1..]);
      if f[0].Field? || f[0].c == '%' {
        assert text[2..] == FormatText(f[1..]);
      } else {
        assert text[1..] == FormatText(f[1..]);
      }
      assert [f[0]] + f[1..] == f;
    }
  }

  /** Every format text that compiles is the text of what it compiles to. */
  lemma {:induction false} FormatTextCompile(text: string)
    requires CompileFormat(text).Some?
    ensures FormatText(CompileFormat(text).value) == text
  {
    if |text| > 0 {
      var f := CompileFormat(text).value;
      if text[0] != '%' {
        FormatTextCompile(text[1..]);
        assert f[1..] == CompileFormat(text[1..]).value;
        assert text == [text[0]] + text[1..];
      } else {
        FormatTextCompile(text[2..]);
        assert f[1..] == CompileFormat(text[2..]).value;
        assert text == text[..2] + text[2..];
      }
    }
  }

  // ---------------------------------------------------------------------
  // strptime
  // ---------------------------------------------------------------------

  /** A one-character pattern of `strptime`'s regular expression. */
  datatype CharClass = AnyDigit | Span(lo: char, hi: char) | Exactly(c: char)

  predicate Accepts(cl: CharClass, c: char) {
    match cl
    case AnyDigit => IsDigit(c)
    case Span(lo, hi) => lo <= c <= hi
    case Exactly(e) => c == e
  }

  /** The alternatives of each field's regular expression, in the order the
      regular expression tries them (`%m` is `1[0-2]|0[1-9]|[1-9]`, ...). */
  function Alternatives(k: FieldKind): (alts: seq<seq<CharClass>>)
    ensures 1 <= |alts| <= 5
  {
    match k
    case Year => [[AnyDigit, AnyDigit, AnyDigit, AnyDigit]]
    case Month => [[Exactly('1'), Span('0', '2')], [Exactly('0'), Span('1', '9')], [Span('1', '9')]]
    case Day => [[Exactly('3'), Span('0', '1')], [Span('1', '2'), AnyDigit], [Exactly('0'), Span('1', '9')],
                 [Span('1', '9')], [Exactly(' '), Span('1', '9')]]
    case Hour => [[Exactly('2'), Span('0', '3')], [Span('0', '1'), AnyDigit], [AnyDigit]]
    case Minute => [[Span('0', '5'), AnyDigit], [AnyDigit]]
    case Second => [[Exactly('6'), Span('0', '1')], [Span('0', '5'), AnyDigit], [AnyDigit]]
  }

  predicate MatchesAt(alt: seq<CharClass>, s: string) {
    |alt| <= |s| && forall i :: 0 <= i < |alt| ==> Accepts(alt[i], s[i])
  }

  /** `int(text)` for a matched field: digits, possibly after one space. */
  function NumberValue(text: string): nat {
    if |text| == 0 then 0
    else NumberValue(text[..|text| - 1]) * 10 + (if IsDigit(text[|text| - 1]) then DigitValue(text[|text| - 1]) else 0)
  }

  lemma {:induction false} NumberValueOfDigits(text: string)
    requires AllDigits(text)
    ensures NumberValue(text) == DigitsValue(text)
  {
    if |text| > 0 {
      NumberValueOfDigits(text[..|text| - 1]);
    }
  }

  predicate IsUpper(c: char) {
    'A' <= c <= 'Z'
  }

  /** Literal characters of the format match regardless of ASCII case. */
  predicate SameIgnoringCase(a: char, b: char) {
    || a == b
    || (IsUpper(a) && b as int == a as int + 32)
    || (IsUpper(b) && a as int == b as int + 32)
  }

  /** The fields `strptime` leaves unset. */
  const Default := DateTime(1900, 1, 1, 0, 0, 0, 0)

  function SetField(t: DateTime, k: FieldKind, v: int): DateTime {
    match k
    case Year => t.(year := v)
    case Month => t.(month := v)
    case Day => t.(day := v)
    case Hour => t.(hour := v)
    case Minute => t.(minute := v)
    case Second => t.(second := v)
  }

  function FieldOf(t: DateTime, k: FieldKind): int {
    match k
    case Year => t.year
    case Month => t.month
    case Day => t.day
    case Hour => t.hour
    case Minute => t.minute
    case Second => t.second
  }

  /** The regular expression `strptime` builds from `f`, matched at the start
      of `s`: the first way, in backtracking order, to get through the whole
      pattern, with the fields it read and the input it left over. */
  function Scan(f: Format, s: string): (r: Option<(DateTime, string)>)
    ensures r.Some? ==> r.value.0.microsecond == 0
    decreases |f|, 6
  {
    if |f| == 0 then Some((Default, s))
    else
      match f[0]
      case Lit(c) => if |s| > 0 && SameIgnoringCase(s[0], c) then Scan(f[1..], s[1..]) else None
      case Field(k) => TryAlternatives(k, Alternatives(k), f[1..], s)
  }

  function TryAlternatives(k: FieldKind, alts: seq<seq<CharClass>>, rest: Format, s: string): (r: Option<(DateTime, string)>)
    requires |alts| <= 5
    ensures r.Some? ==> r.value.0.microsecond == 0
    decreases |rest| + 1, |alts|
  {
    if |alts| == 0 then None
    else if MatchesAt(alts[0], s) then
      match Scan(rest, s[|alts[0]|..])
      case Some((t, left)) => Some((SetField(t, k, NumberValue(s[..|alts[0]|])), left))
      case None => TryAlternatives(k, alts[1..], rest, s)
    else TryAlternatives(k, alts[1..], rest, s)
  }

  /** `datetime.strptime(s, f)`, with `None` for every `ValueError`: no match,
      unconverted data left over, or fields no `datetime` can hold. */
  function Strptime(s: string, f: Format): (r: Option<DateTime>)
    ensures r.Some? ==> Valid(r.value) && r.value.microsecond == 0
    ensures r.Some? <==> Scan(f, s).Some? && Scan(f, s).value.1 == [] && Valid(Scan(f, s).value.0)
  {
    match Scan(f, s)
    case None => None
    case Some((t, left)) => if left == [] && Valid(t) then Some(t) else None
  }

  /** A field the format does not mention keeps `strptime`'s default. */
  lemma {:induction false} ScanKeepsDefaults(f: Format, s: string, k: FieldKind)
    requires Field(k) !in f
    ensures Scan(f, s).Some? ==> FieldOf(Scan(f, s).value.0, k) == FieldOf(Default, k)
    decreases |f|, 6
  {
    if |f| > 0 {
      assert f == [f[0]] + f[1..];
      match f[0]
      case Lit(c) =>
        if |s| > 0 && SameIgnoringCase(s[0], c) {
          ScanKeepsDefaults(f[1..], s[1..], k);
        }
      case Field(k0) =>
        TryKeepsDefaults(k0, Alternatives(k0), f[1..], s, k);
    }
  }

  lemma {:induction false} TryKeepsDefaults(k0: FieldKind, alts: seq<seq<CharClass>>, rest: Format, s: string, k: FieldKind)
    requires |alts| <= 5 && k0 != k && Field(k) !in rest
    ensures var r := TryAlternatives(k0, alts, rest, s);
      r.Some? ==> FieldOf(r.value.0, k) == FieldOf(Default, k)
    decreases |rest| + 1, |alts|
  {
    if |alts| > 0 {
      if MatchesAt(alts[0], s) {
        ScanKeepsDefaults(rest, s[|alts[0]|..], k);
      }
      TryKeepsDefaults(k0, alts[1..], rest, s, k);
    }
  }

  // ---------------------------------------------------------------------
  // strftime, and the round trip through strptime
  // ---------------------------------------------------------------------

  function FieldText(t: DateTime, k: FieldKind): (s: string)
    requires Valid(t)
    ensures |s| == if k == Year then 4 else 2
  {
    match k
    case Year => PadNat(t.year, 4)
    case Month => PadNat(t.month, 2)
    case Day => PadNat(t.day, 2)
    case Hour => PadNat(t.hour, 2)
    case Minute => PadNat(t.minute, 2)
    case Second => PadNat(t.second, 2)
  }

  /** `t.strftime(f)`. */
  function Render(t: DateTime, f: Format): string
    requires Valid(t)
  {
    if |f| == 0 then ""
    else
      (match f[0]
       case Field(k) => FieldText(t, k)
       case Lit(c) => [c])
      + Render(t, f[1..])
  }

  /** `strftime` writes a concatenated format piece by piece. */
  lemma {:induction false} RenderAppend(t: DateTime, f: Format, g: Format)
    requires Valid(t)
    ensures Render(t, f + g) == Render(t, f) + Render(t, g)
  {
    if |f| == 0 {
      assert f + g == g;
    } else {
      var fg := f + g;
      assert fg[0] == f[0] && fg[1..] == f[1..] + g;
      RenderAppend(t, f[1..], g);
    }
  }

  /** The fields of `t` that `f` writes, over `strptime`'s defaults. */
  function Project(t: DateTime, f: Format): DateTime {
    if |f| == 0 then Default
    else
      match f[0]
      case Lit(_) => Project(t, f[1..])
      case Field(k) => SetField(Project(t, f[1..]), k, FieldOf(t, k))
  }

  /** Each field of the projection comes from `t` when `f` mentions it and
      from the defaults otherwise. */
  lemma {:induction false} ProjectField(t: DateTime, f: Format, k: FieldKind)
    ensures FieldOf(Project(t, f), k) == if Field(k) in f then FieldOf(t, k) else FieldOf(Default, k)
    ensures Project(t, f).microsecond == 0
  {
    if |f| > 0 {
      ProjectField(t, f[1..], k);
      assert f == [f[0]] + f[1..];
    }
  }

  /** A format that mentions every field projects all of `t` but its
      microseconds. */
  lemma ProjectAllFields(t: DateTime, f: Format)
    requires forall k :: Field(k) in f
    ensures Project(t, f) == t.(microsecond := 0)
  {
    ProjectField(t, f, Year);
    ProjectField(t, f, Month);
    ProjectField(t, f, Day);
    ProjectField(t, f, Hour);
    ProjectField(t, f, Minute);
    ProjectField(t, f, Second);
  }

  lemma TwoDigits(v: nat)
    requires v < 100
    ensures PadNat(v, 2) == [DigitChar(v / 10), DigitChar(v % 10)]
    ensures NumberValue(PadNat(v, 2)) == v
  {
    assert PadNat(v, 2) == PadNat(v / 10, 1) + [DigitChar(v % 10)];
    assert PadNat(v / 10, 1) == PadNat(v / 10 / 10, 0) + [DigitChar(v / 10 % 10)];
    NumberValueOfDigits(PadNat(v, 2));
    PadNatRoundTrip(v, 2);
  }

  lemma FourDigits(v: nat)
    requires v < 10000
    ensures NumberValue(PadNat(v, 4)) == v
  {
    NumberValueOfDigits(PadNat(v, 4));
    PadNatRoundTrip(v, 4);
  }

  /** Backtracking over a field's alternatives settles on the first one that
      matches and lets the rest of the pattern through. */
  lemma {:induction false} PickAlternative(k: FieldKind, alts: seq<seq<CharClass>>, rest: Format, s: string, j: nat)
    requires |alts| <= 5 && j < |alts|
    requires forall i :: 0 <= i < j ==> !MatchesAt(alts[i], s)
    requires MatchesAt(alts[j], s)
    requires Scan(rest, s[|alts[j]|..]).Some?
    ensures TryAlternatives(k, alts, rest, s)
         == Some((SetField(Scan(rest, s[|alts[j]|..]).value.0, k, NumberValue(s[..|alts[j]|])),
                  Scan(rest, s[|alts[j]|..]).value.1))
  {
    if j > 0 {
      assert !MatchesAt(alts[0], s);
      PickAlternative(k, alts[1..], rest, s, j - 1);
    }
  }

  /** Which alternative reads a two-digit field back whole: every one tried
      before it fails on the first two characters. */
  function TwoDigitAlternative(k: FieldKind, v: nat): nat {
    match k
    case Year => 0
    case Month => if v >= 10 then 0 else 1
    case Day => if v >= 30 then 0 else if v >= 10 then 1 else 2
    case Hour => if v >= 20 then 0 else 1
    case Minute => 0
    case Second => 1
  }

  /** Alternative `j` of field `k` is the first to match `s`, and it takes
      two characters. */
  predicate FirstTwoDigitMatch(k: FieldKind, s: string, j: nat) {
    && j < |Alternatives(k)| && |Alternatives(k)[j]| == 2
    && MatchesAt(Alternatives(k)[j], s)
    && forall i :: 0 <= i < j ==> !MatchesAt(Alternatives(k)[i], s)
  }

  /** `s` starts with the two digits of `v`. */
  predicate StartsWithTwoDigits(s: string, v: nat)
    requires v < 100
  {
    |s| >= 2 && s[0] == DigitChar(v / 10) && s[1] == DigitChar(v % 10)
  }

  lemma MonthAlternative(v: nat, s: string)
    requires 1 <= v <= 12 && StartsWithTwoDigits(s, v)
    ensures FirstTwoDigitMatch(Month, s, TwoDigitAlternative(Month, v))
  {
  }

  lemma DayAlternative(v: nat, s: string)
    requires 1 <= v <= 31 && StartsWithTwoDigits(s, v)
    ensures FirstTwoDigitMatch(Day, s, TwoDigitAlternative(Day, v))
  {
    var alts := Alternatives(Day);
    if v >= 30 {
      assert MatchesAt(alts[0], s);
    } else if v >= 10 {
      assert !MatchesAt(alts[0], s) && MatchesAt(alts[1], s);
    } else {
      assert !MatchesAt(alts[0], s) && !MatchesAt(alts[1], s) && MatchesAt(alts[2], s);
    }
  }

  lemma HourAlternative(v: nat, s: string)
    requires v < 24 && StartsWithTwoDigits(s, v)
    ensures FirstTwoDigitMatch(Hour, s, TwoDigitAlternative(Hour, v))
  {
  }

  lemma MinuteAlternative(v: nat, s: string)
    requires v < 60 && StartsWithTwoDigits(s, v)
    ensures FirstTwoDigitMatch(Minute, s, TwoDigitAlternative(Minute, v))
  {
  }

  lemma SecondAlternative(v: nat, s: string)
    requires v < 60 && StartsWithTwoDigits(s, v)
    ensures FirstTwoDigitMatch(Second, s, TwoDigitAlternative(Second, v))
  {
  }

  lemma TwoDigitAlternativeMatches(t: DateTime, k: FieldKind, s: string)
    requires Valid(t) && k != Year
    requires |s| >= 2 && s[..2] == FieldText(t, k)
    ensures var j := TwoDigitAlternative(k, FieldOf(t, k));
      && j < |Alternatives(k)| && |Alternatives(k)[j]| == 2
      && MatchesAt(Alternatives(k)[j], s)
      && forall i :: 0 <= i < j ==> !MatchesAt(Alternatives(k)[i], s)
  {
    var v := FieldOf(t, k);
    assert v < 100;
    TwoDigits(v);
    assert s[0] == s[..2][0] && s[1] == s[..2][1];
    assert StartsWithTwoDigits(s, v);
    match k {
      case Month => MonthAlternative(v, s);
      case Day => DayAlternative(v, s);
      case Hour => HourAlternative(v, s);
      case Minute => MinuteAlternative(v, s);
      case Second => SecondAlternative(v, s);
    }
  }

  /** A field written by `strftime` is read back whole: the first way through
      the pattern takes exactly the field's characters. */
  lemma FieldReadBack(t: DateTime, k: FieldKind, rest: Format, tail: string)
    requires Valid(t)
    requires Scan(rest, tail).Some?
    ensures TryAlternatives(k, Alternatives(k), rest, FieldText(t, k) + tail)
         == Some((SetField(Scan(rest, tail).value.0, k, FieldOf(t, k)), Scan(rest, tail).value.1))
  {
    var s := FieldText(t, k) + tail;
    var w := |FieldText(t, k)|;
    assert s[..w] == FieldText(t, k) && s[w..] == tail;
    if k == Year {
      FourDigits(t.year);
      PickAlternative(k, Alternatives(k), rest, s, 0);
    } else {
      TwoDigits(FieldOf(t, k));
      TwoDigitAlternativeMatches(t, k, s);
      PickAlternative(k, Alternatives(k), rest, s, TwoDigitAlternative(k, FieldOf(t, k)));
    }
  }

  /** `strptime` reads back what `strftime` wrote with the same format,
      whatever follows it. */
  lemma {:induction false} ScanRender(t: DateTime, f: Format, tail: string)
    requires Valid(t)
    ensures Scan(f, Render(t, f) + tail) == Some((Project(t, f), tail))
  {
    if |f| > 0 {
      ScanRender(t, f[1..], tail);
      var after := Render(t, f[1..]) + tail;
      match f[0] {
        case Lit(c) =>
          var s := Render(t, f) + tail;
          assert s == [c] + after;
          assert s[0] == c && s[1..] == after;
        case Field(k) =>
          assert Render(t, f) + tail == FieldText(t, k) + after;
          FieldReadBack(t, k, f[1..], after);
      }
    } else {
      assert Render(t, f) + tail == tail;
    }
  }

  /** The round trip for whole strings: `strptime(t.strftime(f), f)` is the
      part of `t` that `f` mentions, when that part is a valid `datetime`. */
  lemma StrptimeRender(t: DateTime, f: Format)
    requires Valid(t)
    ensures Strptime(Render(t, f), f) == if Valid(Project(t, f)) then Some(Project(t, f)) else None
  {
    ScanRender(t, f, "");
    assert Render(t, f) + "" == Render(t, f);
  }

  // ---------------------------------------------------------------------
  // date_parser
  // ---------------------------------------------------------------------

  /** `strptime` with a format given as text; a format that does not compile
      raises `ValueError`, which `date_parser` catches like a mismatch. */
  function StrptimeText(s: string, text: string): Option<DateTime> {
    match CompileFormat(text)
    case None => None
    case Some(f) => Strptime(s, f)
  }

  /** The formats `date_parser` tries, as the source lists them. The ninth
      reads `%%H` where `%H` is meant. */
  const DateFormatsAsWritten: seq<string> := [
    "%Y-%m-%d", "%d.%m.%Y", "%d/%m/%Y", "%Y%m%d", "%Y/%m/%d",
    "%Y-%m-%dT%H:%M:%S", "%d.%m.%YT%H:%M:%S", "%d/%m/%YT%H:%M:%S",
    "%Y%m%dT%%H:%M:%S", "%Y/%m/%dT%H:%M:%S"
  ]

  /** The same list with the ninth format as intended. */
  const DateFormats: seq<string> := [
    "%Y-%m-%d", "%d.%m.%Y", "%d/%m/%Y", "%Y%m%d", "%Y/%m/%d",
    "%Y-%m-%dT%H:%M:%S", "%d.%m.%YT%H:%M:%S", "%d/%m/%YT%H:%M:%S",
    "%Y%m%dT%H:%M:%S", "%Y/%m/%dT%H:%M:%S"
  ]

  /** The first format, in list order, that `s` parses with, and the result. */
  function FirstMatch(s: string, fmts: seq<string>): (r: Option<(nat, DateTime)>)
    ensures r.Some? ==> r.value.0 < |fmts| && StrptimeText(s, fmts[r.value.0]) == Some(r.value.1)
    ensures r.Some? ==> forall j :: 0 <= j < r.value.0 ==> StrptimeText(s, fmts[j]).None?
    ensures r.None? <==> forall j :: 0 <= j < |fmts| ==> StrptimeText(s, fmts[j]).None?
  {
    if |fmts| == 0 then None
    else
      match StrptimeText(s, fmts[0])
      case Some(t) => Some((0, t))
      case None =>
        match FirstMatch(s, fmts[1..])
        case None => None
        case Some((i, t)) => Some((i + 1, t))
  }

  function InvalidDateFormat(fmts: seq<string>): Raised {
    ValueError("Invalid Date format, please use one of these formats " + Join(fmts, ", "))
  }

  /** `date_parser(v, return_datetime=True)` over the format list `fmts`:
      a non-string makes the first `strptime` raise `TypeError`, which is not
      caught; otherwise the first format that parses wins, and when none
      does the error lists every format. */
  function ParseDateWith(v: Value, fmts: seq<string>): (r: Result<DateTime, Raised>)
    ensures r.Success? ==> Valid(r.value)
    ensures r.Success? <==> v.Str? && FirstMatch(v.s, fmts).Some?
    ensures r.Success? ==> r.value == FirstMatch(v.s, fmts).value.1
    ensures v.Str? && FirstMatch(v.s, fmts).None? ==> r == Failure(InvalidDateFormat(fmts))
    ensures !v.Str? && |fmts| > 0 ==> r.Failure? && r.error.Other? && r.error.cls == "TypeError"
  {
    if |fmts| == 0 then Failure(InvalidDateFormat(fmts))
    else if !v.Str? then Failure(TypeError("strptime() argument 1 must be str, not " + TypeName(v)))
    else
      match FirstMatch(v.s, fmts)
      case None => Failure(InvalidDateFormat(fmts))
      case Some((_, t)) => Success(t)
  }

  /** `date_parser(v, return_datetime=True)` as written. */
  function ParseDateAsWritten(v: Value): Result<DateTime, Raised> {
    ParseDateWith(v, DateFormatsAsWritten)
  }

  /** `date_parser(v, return_datetime=True)` with the intended formats; the
      ARM handler's time window uses this one. */
  function ParseDate(v: Value): Result<DateTime, Raised> {
    ParseDateWith(v, DateFormats)
  }

  const YearMonthDay: Format := [Field(Year), Field(Month), Field(Day)]

  /** `date_parser(v)` with its default output format `%Y%m%d`. */
  function DateParser(v: Value): (r: Result<string, Raised>)
    ensures r.Success? <==> ParseDate(v).Success?
    ensures r.Success? ==> |r.value| == 8 && AllDigits(r.value)
    ensures r.Success? ==> Strptime(r.value, YearMonthDay) == Some(ParseDate(v).value.(hour := 0, minute := 0, second := 0))
  {
    match ParseDate(v)
    case Failure(e) => Failure(e)
    case Success(t) =>
      RenderDateOnly(t);
      Success(Render(t, YearMonthDay))
  }

  /** `%Y%m%d` writes eight digits. */
  lemma RenderDateDigits(t: DateTime)
    requires Valid(t)
    ensures |Render(t, YearMonthDay)| == 8 && AllDigits(Render(t, YearMonthDay))
  {
    var y, m, d := PadNat(t.year, 4), PadNat(t.month, 2), PadNat(t.day, 2);
    assert Render(t, YearMonthDay[2..]) == d + "";
    assert Render(t, YearMonthDay[1..]) == m + (d + "");
    assert Render(t, YearMonthDay) == y + (m + (d + ""));
  }

  /** The date part of `t`: its fields that `%Y%m%d` writes. */
  lemma ProjectDate(t: DateTime)
    requires Valid(t) && t.microsecond == 0
    ensures Project(t, YearMonthDay) == t.(hour := 0, minute := 0, second := 0)
  {
    ProjectField(t, YearMonthDay, Year);
    ProjectField(t, YearMonthDay, Month);
    ProjectField(t, YearMonthDay, Day);
    ProjectField(t, YearMonthDay, Hour);
    ProjectField(t, YearMonthDay, Minute);
    ProjectField(t, YearMonthDay, Second);
  }

  /** Writing a date with `%Y%m%d` and reading it back gives the date at
      midnight. */
  lemma RenderDateOnly(t: DateTime)
    requires Valid(t) && t.microsecond == 0
    ensures |Render(t, YearMonthDay)| == 8 && AllDigits(Render(t, YearMonthDay))
    ensures Strptime(Render(t, YearMonthDay), YearMonthDay) == Some(t.(hour := 0, minute := 0, second := 0))
  {
    RenderDateDigits(t);
    ProjectDate(t);
    assert Valid(t.(hour := 0, minute := 0, second := 0));
    StrptimeRender(t, YearMonthDay);
  }

}

/** Facts about `date_parser`'s ten formats: what they compile to, that the
    five date-only ones give midnight, and that the ninth,
    `%Y%m%dT%%H:%M:%S`, reads a literal `%` followed by a literal `H` where
    an hour is meant, so that a compact timestamp such as
    `20170114T10:05:06` matches no format at all. */
module DateFormatList {
  import opened Wrappers
  import opened Strings
  import opened Values
  import opened Calendar
  import opened Dates

  /** What the ten format texts compile to, the ninth as intended. */
  const CompiledDateFormats: seq<Format> := [
    [Field(Year), Lit('-'), Field(Month), Lit('-'), Field(Day)],
    [Field(Day), Lit('.'), Field(Month), Lit('.'), Field(Year)],
    [Field(Day), Lit('/'), Field(Month), Lit('/'), Field(Year)],
    [Field(Year), Field(Month), Field(Day)],
    [Field(Year), Lit('/'), Field(Month), Lit('/'), Field(Day)],
    [Field(Year), Lit('-'), Field(Month), Lit('-'), Field(Day), Lit('T'), Field(Hour), Lit(':'), Field(Minute), Lit(':'), Field(Second)],
    [Field(Day), Lit('.'), Field(Month), Lit('.'), Field(Year), Lit('T'), Field(Hour), Lit(':'), Field(Minute), Lit(':'), Field(Second)],
    [Field(Day), Lit('/'), Field(Month), Lit('/'), Field(Year), Lit('T'), Field(Hour), Lit(':'), Field(Minute), Lit(':'), Field(Second)],
    [Field(Year), Field(Month), Field(Day), Lit('T'), Field(Hour), Lit(':'), Field(Minute), Lit(':'), Field(Second)],
    [Field(Year), Lit('/'), Field(Month), Lit('/'), Field(Day), Lit('T'), Field(Hour), Lit(':'), Field(Minute), Lit(':'), Field(Second)]
  ]

  /** What the ninth format compiles to as written: `%%` and `H` are two
      literal characters. */
  const NinthAsWritten: Format := [Field(Year), Field(Month), Field(Day), Lit('T'), Lit('%'), Lit('H'), Lit(':'), Field(Minute), Lit(':'), Field(Second)]

  /** `T%H:%M:%S`, the time part of five of the formats. */
  const TClock: Format := [Lit('T'), Field(Hour), Lit(':'), Field(Minute), Lit(':'), Field(Second)]

  lemma WithClock(date: Format, text: string)
    requires FormatText(date) == text
    ensures FormatText(date + TClock) == text + "T%H:%M:%S"
  {
    FormatTextAppend(date, TClock);
  }

  /** A format with a time part compiles when its date part does and the
      two halves put together are the listed text and directives. */
  lemma ClockFormat(i: nat, date: Format, text: string)
    requires 5 <= i < 10 && FormatText(date) == text
    requires date + TClock == CompiledDateFormats[i]
    requires text + "T%H:%M:%S" == DateFormats[i]
    ensures CompileFormat(DateFormats[i]) == Some(CompiledDateFormats[i])
  {
    WithClock(date, text);
    CompileOne(DateFormats[i], CompiledDateFormats[i]);
  }

  lemma CompileOne(text: string, f: Format)
    requires FormatText(f) == text
    ensures CompileFormat(text) == Some(f)
  {
    CompileFormatText(f);
  }

  lemma Compile0() ensures CompileFormat(DateFormats[0]) == Some(CompiledDateFormats[0]) { CompileOne(DateFormats[0], CompiledDateFormats[0]); }
  lemma Compile1() ensures CompileFormat(DateFormats[1]) == Some(CompiledDateFormats[1]) { CompileOne(DateFormats[1], CompiledDateFormats[1]); }
  lemma Compile2() ensures CompileFormat(DateFormats[2]) == Some(CompiledDateFormats[2]) { CompileOne(DateFormats[2], CompiledDateFormats[2]); }
  lemma Compile3() ensures CompileFormat(DateFormats[3]) == Some(CompiledDateFormats[3]) { CompileOne(DateFormats[3], CompiledDateFormats[3]); }
  lemma Compile4() ensures CompileFormat(DateFormats[4]) == Some(CompiledDateFormats[4]) { CompileOne(DateFormats[4], CompiledDateFormats[4]); }
  lemma Compile5()
    ensures CompileFormat(DateFormats[5]) == Some(CompiledDateFormats[5])
  {
    ClockFormat(5, [Field(Year), Lit('-'), Field(Month), Lit('-'), Field(Day)], "%Y-%m-%d");
  }
  lemma Compile6()
    ensures CompileFormat(DateFormats[6]) == Some(CompiledDateFormats[6])
  {
    ClockFormat(6, [Field(Day), Lit('.'), Field(Month), Lit('.'), Field(Year)], "%d.%m.%Y");
  }
  lemma Compile7()
    ensures CompileFormat(DateFormats[7]) == Some(CompiledDateFormats[7])
  {
    ClockFormat(7, [Field(Day), Lit('/'), Field(Month), Lit('/'), Field(Year)], "%d/%m/%Y");
  }
  lemma Compile8()
    ensures CompileFormat(DateFormats[8]) == Some(CompiledDateFormats[8])
  {
    ClockFormat(8, [Field(Year), Field(Month), Field(Day)], "%Y%m%d");
  }
  lemma Compile9()
    ensures CompileFormat(DateFormats[9]) == Some(CompiledDateFormats[9])
  {
    ClockFormat(9, [Field(Year), Lit('/'), Field(Month), Lit('/'), Field(Day)], "%Y/%m/%d");
  }
  /** `T%%H:%M:%S`, the time part of the ninth format as written. */
  const NinthClockAsWritten: Format := [Lit('T'), Lit('%'), Lit('H'), Lit(':'), Field(Minute), Lit(':'), Field(Second)]

  lemma NinthClockAsWrittenText()
    ensures FormatText(NinthClockAsWritten) == "T%%H:%M:%S"
  {
    var f := NinthClockAsWritten;
    assert FormatText(f[6..]) == "%S";
    assert FormatText(f[5..]) == ":%S";
    assert FormatText(f[4..]) == "%M:%S";
    assert FormatText(f[3..]) == ":%M:%S";
    assert FormatText(f[2..]) == "H:%M:%S";
    assert FormatText(f[1..]) == "%%H:%M:%S";
  }

  lemma YMDText()
    ensures FormatText(YearMonthDay) == "%Y%m%d"
  {
    assert FormatText(YearMonthDay[2..]) == "%d";
  }

  lemma NinthAsWrittenText()
    ensures "%Y%m%d" + "T%%H:%M:%S" == DateFormatsAsWritten[8]
  {
  }

  lemma CompileNinthAsWritten()
    ensures CompileFormat(DateFormatsAsWritten[8]) == Some(NinthAsWritten)
  {
    assert NinthAsWritten == YearMonthDay + NinthClockAsWritten;
    FormatTextAppend(YearMonthDay, NinthClockAsWritten);
    YMDText();
    NinthClockAsWrittenText();
    NinthAsWrittenText();
    CompileOne(DateFormatsAsWritten[8], NinthAsWritten);
  }

  /** The two format lists differ only in the ninth entry. */
  lemma OnlyNinthDiffers()
    ensures |DateFormats| == |DateFormatsAsWritten| == 10
    ensures forall i :: 0 <= i < 10 && i != 8 ==> DateFormatsAsWritten[i] == DateFormats[i]
    ensures DateFormatsAsWritten[8] != DateFormats[8]
  {
    assert DateFormatsAsWritten[8][8] == '%' && DateFormats[8][8] == 'H';
  }

  /** Every format text compiles, to the directives listed above. */
  lemma DateFormatsCompile()
    ensures |DateFormats| == |CompiledDateFormats| == 10
    ensures forall i :: 0 <= i < 10 ==> CompileFormat(DateFormats[i]) == Some(CompiledDateFormats[i])
    ensures CompileFormat(DateFormatsAsWritten[8]) == Some(NinthAsWritten)
  {
    forall i | 0 <= i < 10
      ensures CompileFormat(DateFormats[i]) == Some(CompiledDateFormats[i])
    {
      if i == 0 { Compile0(); }
      else if i == 1 { Compile1(); }
      else if i == 2 { Compile2(); }
      else if i == 3 { Compile3(); }
      else if i == 4 { Compile4(); }
      else if i == 5 { Compile5(); }
      else if i == 6 { Compile6(); }
      else if i == 7 { Compile7(); }
      else if i == 8 { Compile8(); }
      else { Compile9(); }
    }
    CompileNinthAsWritten();
  }

  // Small steps of the backtracking search.

  lemma LitMismatch(f: Format, s: string, c: char)
    requires |f| >= 1 && f[0] == Lit(c) && |s| >= 1 && !SameIgnoringCase(s[0], c)
    ensures Scan(f, s) == None
  {
  }

  /** Every alternative either fails to match or leads nowhere. */
  lemma {:induction false} NoAlternativeWorks(k: FieldKind, alts: seq<seq<CharClass>>, rest: Format, s: string)
    requires |alts| <= 5
    requires forall i :: 0 <= i < |alts| ==> !MatchesAt(alts[i], s) || Scan(rest, s[|alts[i]|..]) == None
    ensures TryAlternatives(k, alts, rest, s) == None
  {
    if |alts| > 0 {
      NoAlternativeWorks(k, alts[1..], rest, s);
    }
  }

  /** A year followed by a separator the input does not have. */
  lemma YearThenMismatch(f: Format, s: string, c: char)
    requires |s| >= 5 && MatchesAt(Alternatives(Year)[0], s)
    requires |f| >= 2 && f[0] == Field(Year) && f[1] == Lit(c) && !SameIgnoringCase(s[4], c)
    ensures Scan(f, s) == None
  {
    LitMismatch(f[1..], s[4..], c);
    NoAlternativeWorks(Year, Alternatives(Year), f[1..], s);
  }

  /** A day followed by a separator the input has neither after two digits
      nor after one. */
  lemma DayThenMismatch(f: Format, s: string, c: char)
    requires |s| >= 3 && !SameIgnoringCase(s[1], c) && !SameIgnoringCase(s[2], c)
    requires |f| >= 2 && f[0] == Field(Day) && f[1] == Lit(c)
    ensures Scan(f, s) == None
  {
    LitMismatch(f[1..], s[1..], c);
    LitMismatch(f[1..], s[2..], c);
    var alts := Alternatives(Day);
    assert forall i :: 0 <= i < |alts| ==> |alts[i]| == 1 || |alts[i]| == 2;
    NoAlternativeWorks(Day, alts, f[1..], s);
  }

  const CompactTimestamp := "20170114T10:05:06"

  lemma YearFirstRejects(i: nat, c: char)
    requires i < 10 && CompiledDateFormats[i][..2] == [Field(Year), Lit(c)] && c != '0'
    ensures Scan(CompiledDateFormats[i], CompactTimestamp) == None
  {
    var f := CompiledDateFormats[i];
    assert f[0] == f[..2][0] && f[1] == f[..2][1];
    YearThenMismatch(f, CompactTimestamp, c);
  }

  lemma DayFirstRejects(i: nat, c: char)
    requires i < 10 && CompiledDateFormats[i][..2] == [Field(Day), Lit(c)] && c != '0' && c != '1'
    ensures Scan(CompiledDateFormats[i], CompactTimestamp) == None
  {
    var f := CompiledDateFormats[i];
    assert f[0] == f[..2][0] && f[1] == f[..2][1];
    DayThenMismatch(f, CompactTimestamp, c);
  }

  const CompactResult := DateTime(2017, 1, 14, 10, 5, 6, 0)

  lemma RenderCompactDate()
    ensures Render(CompactResult, YearMonthDay) == "20170114"
  {
    assert PadNat(2017, 4) == "2017";
    assert PadNat(1, 2) == "01" && PadNat(14, 2) == "14";
  }

  /** The two-digit renderings of the compact timestamp's clock fields. */
  lemma CompactClockPads()
    ensures PadNat(10, 2) == "10" && PadNat(5, 2) == "05" && PadNat(6, 2) == "06"
  {
  }

  lemma RenderCompactClock()
    ensures Render(CompactResult, TClock) == "T10:05:06"
  {
    CompactClockPads();
    var t := CompactResult;
    assert Render(t, TClock[5..]) == "06";
    assert Render(t, TClock[4..]) == ":06";
    assert Render(t, TClock[3..]) == "05:06";
    assert Render(t, TClock[2..]) == ":05:06";
    assert Render(t, TClock[1..]) == "10:05:06";
  }

  /** The compact timestamp is its date followed by its time. */
  lemma CompactTimestampHalves()
    ensures "20170114" + "T10:05:06" == CompactTimestamp
  {
  }

  /** `%Y%m%d` reads the date and stops before `T`: the rest is unconverted. */
  lemma CompactDateLeavesTime()
    ensures Scan(YearMonthDay, CompactTimestamp) == Some((DateTime(2017, 1, 14, 0, 0, 0, 0), "T10:05:06"))
  {
    RenderCompactDate();
    ScanRender(CompactResult, YearMonthDay, "T10:05:06");
    CompactTimestampHalves();
    assert Project(CompactResult, YearMonthDay) == DateTime(2017, 1, 14, 0, 0, 0, 0);
  }

  /** After the date and `T` the as-written format wants a `%`. */
  lemma NinthAsWrittenAfterDay()
    ensures Scan(NinthAsWritten[3..], "T10:05:06") == None
    ensures Scan(NinthAsWritten[3..], "4T10:05:06") == None
  {
    var f := NinthAsWritten[3..];
    LitMismatch(f[1..], "10:05:06", '%');
    LitMismatch(f, "4T10:05:06", 'T');
  }

  /** A day starting with `1` and a second digit is tried as two digits and
      then as one; when neither leaves a tail the pattern accepts, the day
      fails. */
  lemma DayTwoThenOne(f: Format, s: string)
    requires |f| >= 1 && f[0] == Field(Day)
    requires |s| >= 2 && s[0] == '1' && IsDigit(s[1])
    requires Scan(f[1..], s[2..]) == None && Scan(f[1..], s[1..]) == None
    ensures Scan(f, s) == None
  {
    var ds := Alternatives(Day);
    assert !MatchesAt(ds[0], s) && !MatchesAt(ds[2], s) && !MatchesAt(ds[4], s);
    NoAlternativeWorks(Day, ds, f[1..], s);
  }

  /** A month starting with `0` and a non-zero digit is read as two digits
      only; when the tail fails, the month fails. */
  lemma MonthLeadingZero(f: Format, s: string)
    requires |f| >= 1 && f[0] == Field(Month)
    requires |s| >= 2 && s[0] == '0' && '1' <= s[1] <= '9'
    requires Scan(f[1..], s[2..]) == None
    ensures Scan(f, s) == None
  {
    var ms := Alternatives(Month);
    assert !MatchesAt(ms[0], s) && !MatchesAt(ms[2], s);
    NoAlternativeWorks(Month, ms, f[1..], s);
  }

  /** The day is read as `14` or as `1`; neither lets the pattern finish. */
  lemma NinthAsWrittenAfterMonth()
    ensures Scan(NinthAsWritten[2..], "14T10:05:06") == None
  {
    var s := "14T10:05:06";
    NinthAsWrittenAfterDay();
    assert s[2..] == "T10:05:06" && s[1..] == "4T10:05:06";
    assert NinthAsWritten[2..][1..] == NinthAsWritten[3..];
    DayTwoThenOne(NinthAsWritten[2..], s);
  }

  /** The month is read as `01`; the rest of the pattern then fails. */
  lemma NinthAsWrittenAfterYear()
    ensures Scan(NinthAsWritten[1..], "0114T10:05:06") == None
  {
    var s := "0114T10:05:06";
    NinthAsWrittenAfterMonth();
    assert s[2..] == "14T10:05:06";
    assert NinthAsWritten[1..][1..] == NinthAsWritten[2..];
    MonthLeadingZero(NinthAsWritten[1..], s);
  }

  /** The as-written ninth format rejects the compact timestamp. */
  lemma NinthAsWrittenRejects()
    ensures Scan(NinthAsWritten, CompactTimestamp) == None
  {
    NinthAsWrittenAfterYear();
    assert CompactTimestamp[4..] == "0114T10:05:06";
    NoAlternativeWorks(Year, Alternatives(Year), NinthAsWritten[1..], CompactTimestamp);
  }

  lemma RenderCompactTimestamp()
    ensures Render(CompactResult, CompiledDateFormats[8]) == CompactTimestamp
  {
    assert CompiledDateFormats[8] == YearMonthDay + TClock;
    RenderAppend(CompactResult, YearMonthDay, TClock);
    RenderCompactDate();
    RenderCompactClock();
    CompactTimestampHalves();
  }

  /** The intended ninth format reads the whole timestamp. */
  lemma NinthAccepts()
    ensures Strptime(CompactTimestamp, CompiledDateFormats[8]) == Some(CompactResult)
  {
    RenderCompactTimestamp();
    StrptimeRender(CompactResult, CompiledDateFormats[8]);
  }

  /** Every compiled format but the ninth fails on the compact timestamp:
      the separator after the first field is missing, or (`%Y%m%d`) the
      time is left over. */
  lemma CompiledRejects(i: nat)
    requires i < 10 && i != 8
    ensures Strptime(CompactTimestamp, CompiledDateFormats[i]) == None
  {
    if i == 0 || i == 5 {
      YearFirstRejects(i, '-');
    } else if i == 4 || i == 9 {
      YearFirstRejects(i, '/');
    } else if i == 1 || i == 6 {
      DayFirstRejects(i, '.');
    } else if i == 2 || i == 7 {
      DayFirstRejects(i, '/');
    } else {
      CompactDateLeavesTime();
    }
  }

  /** Every format but the ninth rejects the compact timestamp, as written
      and as intended alike. */
  lemma OtherFormatsReject(i: nat)
    requires i < 10 && i != 8
    ensures StrptimeText(CompactTimestamp, DateFormats[i]) == None
    ensures StrptimeText(CompactTimestamp, DateFormatsAsWritten[i]) == None
  {
    DateFormatsCompile();
    OnlyNinthDiffers();
    assert CompileFormat(DateFormats[i]) == Some(CompiledDateFormats[i]);
    assert DateFormatsAsWritten[i] == DateFormats[i];
    CompiledRejects(i);
  }

  /** A format without time fields parses to midnight. */
  lemma DateOnlyFormatMidnight(s: string, f: Format)
    requires Field(Hour) !in f && Field(Minute) !in f && Field(Second) !in f
    requires Strptime(s, f).Some?
    ensures Strptime(s, f).value.hour == 0 && Strptime(s, f).value.minute == 0 && Strptime(s, f).value.second == 0
  {
    ScanKeepsDefaults(f, s, Hour);
    ScanKeepsDefaults(f, s, Minute);
    ScanKeepsDefaults(f, s, Second);
  }

  lemma FirstFiveDateOnly(i: nat)
    requires i < 5
    ensures Field(Hour) !in CompiledDateFormats[i] && Field(Minute) !in CompiledDateFormats[i]
    ensures Field(Second) !in CompiledDateFormats[i]
  {
  }

  /** A date matched by one of the five date-only formats is at midnight. */
  lemma DateOnlyInputsAreMidnight(v: Value)
    requires ParseDate(v).Success? && FirstMatch(v.s, DateFormats).value.0 < 5
    ensures ParseDate(v).value.hour == 0 && ParseDate(v).value.minute == 0 && ParseDate(v).value.second == 0
  {
    var i := FirstMatch(v.s, DateFormats).value.0;
    var t := ParseDate(v).value;
    assert StrptimeText(v.s, DateFormats[i]) == Some(t);
    DateFormatsCompile();
    FirstFiveDateOnly(i);
    DateOnlyFormatMidnight(v.s, CompiledDateFormats[i]);
  }

  /** As written, `date_parser` rejects `20170114T10:05:06` and lists the
      formats in its error. */
  lemma CompactTimestampRejectedAsWritten()
    ensures ParseDateAsWritten(Str(CompactTimestamp)) == Failure(InvalidDateFormat(DateFormatsAsWritten))
  {
    DateFormatsCompile();
    OnlyNinthDiffers();
    NinthAsWrittenRejects();
    forall j | 0 <= j < 10
      ensures StrptimeText(CompactTimestamp, DateFormatsAsWritten[j]).None?
    {
      if j != 8 {
        OtherFormatsReject(j);
      }
    }
  }

  /** With the ninth format as intended, the same input parses to
      2017-01-14 10:05:06. */
  lemma CompactTimestampParsed()
    ensures ParseDate(Str(CompactTimestamp)) == Success(CompactResult)
  {
    DateFormatsCompile();
    NinthAccepts();
    forall j | 0 <= j < 10 && j != 8
      ensures StrptimeText(CompactTimestamp, DateFormats[j]).None?
    {
      OtherFormatsReject(j);
    }
    var r := FirstMatch(CompactTimestamp, DateFormats);
    assert StrptimeText(CompactTimestamp, DateFormats[8]).Some?;
    assert r.value.0 == 8;
  }
}
