/** One entry of a phone call log: the dialled number in canonical form, its
    start time, its duration and its direction, with the three operations of
    `CallLog` in phone.py: number normalisation, "MM:SS" duration parsing and
    call-type classification. */
module Phone {
  import opened Text

  /** The five labels `getCallType` returns. */
  datatype CallType = International | Landline | Free | Mobile | Invalid

  /** The label string the source returns for each call type. */
  function Label(t: CallType): (s: string)
    ensures |s| > 0
  {
    match t
    case International => "international"
    case Landline => "landline"
    case Free => "free"
    case Mobile => "mobile"
    case Invalid => "invalid"
  }

  /** The five labels are distinct, so a label names its call type. */
  lemma LabelInjective(a: CallType, b: CallType)
    requires Label(a) == Label(b)
    ensures a == b
  {
  }

  // ---------------------------------------------------------------------
  // normaliseNumber

  /** Step 1: a number starting with `+` has every `+` (not only the first)
      replaced by `00`. Python fails on `number[0]` for the empty string. */
  function PlusToDoubleZero(number: string): string
    requires |number| > 0
  {
    if number[0] == '+' then ReplaceAll(number, "+", "00") else number
  }

  /** The canonical form of a dialled number: step 1, then a leading `0044`
      (the UK country code 44 behind the international prefix 00) collapses
      once to `0`. */
  function NormaliseNumber(number: string): string
    requires |number| > 0
  {
    var n := PlusToDoubleZero(number);
    if StartsWith(n, "0044") then ReplaceFirst(n, "0044", "0") else n
  }

  /** Step 1 in terms of the reference expansion: when the first character is
      `+`, each `+` becomes `00`, nothing else changes, and no `+` is left. */
  lemma PlusStep(number: string)
    requires |number| > 0
    ensures number[0] == '+' ==>
      PlusToDoubleZero(number) == ExpandChar(number, '+', "00") &&
      '+' !in PlusToDoubleZero(number) &&
      |PlusToDoubleZero(number)| == |number| + Count(number, '+')
    ensures number[0] != '+' ==> PlusToDoubleZero(number) == number
  {
    if number[0] == '+' {
      ReplaceAllChar(number, '+', "00");
      ExpandCharRemoves(number, '+', "00");
      ExpandCharLength(number, '+', "00");
    }
  }

  /** Step 2: when step 1 yields a string starting with `0044`, the result is
      `0` followed by everything after those four characters, so any later
      `0044` is kept; otherwise step 2 changes nothing. */
  lemma UkPrefixStep(number: string)
    requires |number| > 0
    ensures StartsWith(PlusToDoubleZero(number), "0044") ==>
      NormaliseNumber(number) == "0" + PlusToDoubleZero(number)[4..]
    ensures !StartsWith(PlusToDoubleZero(number), "0044") ==>
      NormaliseNumber(number) == PlusToDoubleZero(number)
  {
    var n := PlusToDoubleZero(number);
    if StartsWith(n, "0044") {
      ReplaceFirstAtStart(n, "0044", "0");
    }
  }

  /** Expanding `+` into `00` never creates nor destroys a leading `44`. */
  lemma ExpandedStartsWith44(t: string)
    ensures StartsWith(ExpandChar(t, '+', "00"), "44") <==> StartsWith(t, "44")
  {
    var e := ExpandChar(t, '+', "00");
    if t == [] {
    } else if t[0] == '+' {
      assert e == "00" + ExpandChar(t[1..], '+', "00");
      NotStartsWith(e, "44", 0);
      NotStartsWith(t, "44", 0);
    } else if |t| == 1 {
      assert e == [t[0]];
      NotStartsWith(e, "44", 1);
      NotStartsWith(t, "44", 1);
    } else if t[1] == '+' {
      var e1 := ExpandChar(t[1..], '+', "00");
      assert e == [t[0]] + e1;
      assert t[1..][0] == t[1] && t[1..][1..] == t[2..];
      assert e1 == "00" + ExpandChar(t[2..], '+', "00");
      NotStartsWith(e, "44", 1);
      NotStartsWith(t, "44", 1);
    } else {
      var e1 := ExpandChar(t[1..], '+', "00");
      assert e == [t[0]] + e1;
      assert t[1..][0] == t[1] && t[1..][1..] == t[2..];
      assert e1 == [t[1]] + ExpandChar(t[2..], '+', "00");
      assert e[..2] == t[..2];
    }
  }

  /** `+44…` becomes `0` followed by the rest with each `+` expanded. */
  lemma NormalisePlus44(number: string)
    requires StartsWith(number, "+44")
    ensures NormaliseNumber(number) == "0" + ExpandChar(number[3..], '+', "00")
  {
    assert number[0] == '+';
    PlusStep(number);
    UkPrefixStep(number);
    var rest := ExpandChar(number[3..], '+', "00");
    assert number == "+44" + number[3..];
    ExpandCharAppend("+44", number[3..], '+', "00");
    assert ExpandChar("+44", '+', "00") == "0044";
    assert PlusToDoubleZero(number) == "0044" + rest;
    assert ("0044" + rest)[4..] == rest;
  }

  /** Any other number starting with `+` only has its `+`s expanded. */
  lemma NormalisePlusOther(number: string)
    requires |number| > 0 && number[0] == '+' && !StartsWith(number, "+44")
    ensures NormaliseNumber(number) == ExpandChar(number, '+', "00")
  {
    PlusStep(number);
    UkPrefixStep(number);
    var tail := number[1..];
    var e := ExpandChar(tail, '+', "00");
    assert ExpandChar(number, '+', "00") == "00" + e;
    ExpandedStartsWith44(tail);
    assert !StartsWith(tail, "44");
    if |e| < 2 {
      NotStartsWith("00" + e, "0044", 2 + |e|);
    } else if e[0] != '4' {
      NotStartsWith("00" + e, "0044", 2);
    } else {
      assert e[..2] == [e[0], e[1]];
      NotStartsWith("00" + e, "0044", 3);
    }
  }

  /** Without a leading `+`, a leading `0044` collapses once to `0`. */
  lemma NormaliseDoubleZero44(number: string)
    requires |number| > 0 && number[0] != '+' && StartsWith(number, "0044")
    ensures NormaliseNumber(number) == "0" + number[4..]
  {
    PlusStep(number);
    UkPrefixStep(number);
  }

  /** A number that starts with neither `+` nor `0044` is already canonical. */
  lemma NormaliseUnchanged(number: string)
    requires |number| > 0 && number[0] != '+' && !StartsWith(number, "0044")
    ensures NormaliseNumber(number) == number
  {
    UkPrefixStep(number);
    PlusStep(number);
  }

  /** The whole normalisation without `str.replace`: an independent
      definition of the canonical form, by the shape of the raw number. */
  lemma NormaliseSpec(number: string)
    requires |number| > 0
    ensures NormaliseNumber(number) ==
      if number[0] == '+' then
        if StartsWith(number, "+44") then "0" + ExpandChar(number[3..], '+', "00")
        else ExpandChar(number, '+', "00")
      else if StartsWith(number, "0044") then "0" + number[4..]
      else number
  {
    if number[0] == '+' {
      if StartsWith(number, "+44") {
        NormalisePlus44(number);
      } else {
        NormalisePlusOther(number);
      }
    } else if StartsWith(number, "0044") {
      NormaliseDoubleZero44(number);
    } else {
      NormaliseUnchanged(number);
    }
  }

  /** A number dialled with `+` never keeps a `+`. */
  lemma NormaliseRemovesPlus(number: string)
    requires |number| > 0
    ensures number[0] == '+' ==> '+' !in NormaliseNumber(number)
  {
    if number[0] != '+' {
    } else if StartsWith(number, "+44") {
      NormalisePlus44(number);
      ExpandCharRemoves(number[3..], '+', "00");
    } else {
      NormalisePlusOther(number);
      ExpandCharRemoves(number, '+', "00");
    }
  }

  /** The three ways of writing a UK number, `+44…`, `0044…` and `0…`, share
      one canonical form, provided the national part has no `+` and does not
      itself start with `044`. */
  lemma NormaliseUkForms(national: string)
    requires '+' !in national && !StartsWith(national, "044")
    ensures NormaliseNumber("+44" + national) == "0" + national
    ensures NormaliseNumber("0044" + national) == "0" + national
    ensures NormaliseNumber("0" + national) == "0" + national
  {
    var plus := "+44" + national;
    assert plus[..3] == "+44" && plus[3..] == national;
    NormalisePlus44(plus);
    ExpandCharAbsent(national, '+', "00");
    var intl := "0044" + national;
    assert intl[..4] == "0044" && intl[4..] == national;
    NormaliseDoubleZero44(intl);
    var local := "0" + national;
    if |national| < 3 {
      NotStartsWith(local, "0044", |local|);
    } else {
      var i :| 0 <= i < 3 && national[i] != "044"[i];
      NotStartsWith(local, "0044", i + 1);
    }
    NormaliseUnchanged(local);
  }

  /** The normalisation test vectors of test_phone.py: the three spellings
      `+441615556666`, `00441615556666` and `01615556666` of one Manchester
      number share a canonical form. (The national part is a parameter so that
      the verifier does not evaluate `str.replace` on a literal character by
      character.) */
  lemma NormaliseExamples(national: string)
    requires national == "1615556666"
    ensures NormaliseNumber("+44" + national) == NormaliseNumber("0044" + national)
         == NormaliseNumber("0" + national) == "01615556666"
  {
    NotStartsWith(national, "044", 0);
    NormaliseUkForms(national);
  }

  /** A `0044` later in the number survives: `00441615550044` and
      `01615550044` share the canonical form `01615550044`. */
  lemma NormaliseKeepsLaterPrefix(national: string)
    requires national == "1615550044"
    ensures NormaliseNumber("0044" + national) == NormaliseNumber("0" + national) == "01615550044"
  {
    NotStartsWith(national, "044", 0);
    NormaliseUkForms(national);
  }

  /** Normalisation is not idempotent: `0044` is collapsed only once, so a
      second pass can collapse a second `0044`. */
  lemma NormaliseNotIdempotent()
    ensures NormaliseNumber("004404412") == "004412"
    ensures NormaliseNumber("004412") == "012"
    ensures NormaliseNumber(NormaliseNumber("004404412")) != NormaliseNumber("004404412")
  {
    NormaliseSpec("004404412");
    assert "004404412"[4..] == "04412";
    NormaliseSpec("004412");
    assert "004412"[4..] == "12";
  }

  // ---------------------------------------------------------------------
  // parseDuration

  /** The number of seconds in 999 999 999 days plus one: `timedelta` holds at
      most 999 999 999 days and raises `OverflowError` from this length on. */
  const TimedeltaLimit: nat := 86400 * 1000000000

  /** The inputs on which `int(duration[:2])` and `int(duration[3:])` both
      succeed on plain ASCII digits, and `timedelta` accepts the elapsed time
      they give: the slice from index 3 must not be empty, the character at
      index 2 is never looked at, and 60 * minutes + seconds must stay below
      `TimedeltaLimit`. */
  predicate WellFormedDuration(duration: string)
  {
    |duration| >= 4 && AllDigits(duration[..2]) && AllDigits(duration[3..]) &&
    60 * DigitsValue(duration[..2]) + DigitsValue(duration[3..]) < TimedeltaLimit
  }

  /** With digit fields, the `timedelta` limit first matters for a seconds
      field of 14 digits: one of at most 13 digits is always accepted, and one
      of 15 or more digits without a leading zero never is. */
  lemma DurationLengthLimits(duration: string)
    requires |duration| >= 4 && AllDigits(duration[..2]) && AllDigits(duration[3..])
    ensures |duration| <= 16 ==> WellFormedDuration(duration)
    ensures |duration| >= 18 && duration[3] != '0' ==> !WellFormedDuration(duration)
  {
    var secs := duration[3..];
    if |duration| <= 16 {
      DigitsValueBound(duration[..2]);
      DigitsValueBound(secs);
      Pow10Monotone(|secs|, 13);
      assert Pow10(13) == 10000000000000;
    }
    if |duration| >= 18 && duration[3] != '0' {
      assert secs[0] == duration[3];
      DigitsValueLower(secs);
      Pow10Monotone(14, |secs| - 1);
      assert Pow10(14) == 100000000000000;
    }
  }

  /** The elapsed time of an "MM:SS" string, in seconds. */
  function ParseDuration(duration: string): (seconds: nat)
    requires WellFormedDuration(duration)
    ensures seconds < 60 * 100 + Pow10(|duration| - 3)
    ensures seconds < TimedeltaLimit
  {
    DigitsValueBound(duration[..2]);
    DigitsValueBound(duration[3..]);
    60 * DigitsValue(duration[..2]) + DigitsValue(duration[3..])
  }

  /** A five-character "MM:SS" is 60 * MM + SS seconds, whatever the separator;
      seconds are not checked to be below 60, so the result is at most
      99 * 60 + 99. */
  lemma ParseDurationMMSS(duration: string)
    requires |duration| == 5
    requires IsDigit(duration[0]) && IsDigit(duration[1])
    requires IsDigit(duration[3]) && IsDigit(duration[4])
    ensures WellFormedDuration(duration)
    ensures ParseDuration(duration) ==
      60 * (10 * DigitValue(duration[0]) + DigitValue(duration[1]))
      + 10 * DigitValue(duration[3]) + DigitValue(duration[4])
    ensures ParseDuration(duration) <= 99 * 60 + 99
  {
    TwoDigitsValue(duration[..2]);
    TwoDigitsValue(duration[3..]);
  }

  /** Zero-padded "MM:SS" text for a minute and second count below 100. */
  function FormatDuration(minutes: nat, seconds: nat): (s: string)
    requires minutes < 100 && seconds < 100
    ensures |s| == 5 && s[2] == ':'
  {
    TwoDigits(minutes) + ":" + TwoDigits(seconds)
  }

  /** Parsing undoes formatting. */
  lemma ParseFormatRoundTrip(minutes: nat, seconds: nat)
    requires minutes < 100 && seconds < 100
    ensures WellFormedDuration(FormatDuration(minutes, seconds))
    ensures ParseDuration(FormatDuration(minutes, seconds)) == 60 * minutes + seconds
  {
    var s := FormatDuration(minutes, seconds);
    assert s[..2] == TwoDigits(minutes) && s[3..] == TwoDigits(seconds);
    TwoDigitsRoundTrip(minutes);
    TwoDigitsRoundTrip(seconds);
  }

  /** The duration used by test_phone.py, and two strings that show the
      source's leniency: seconds of 60 or more and any separator. */
  lemma ParseDurationExamples()
    ensures ParseDuration("04:05") == 245
    ensures ParseDuration("04-05") == 245
    ensures ParseDuration("00:99") == ParseDuration("01:39") == 99
  {
    ParseDurationMMSS("04:05");
    ParseDurationMMSS("04-05");
    ParseDurationMMSS("00:99");
    ParseDurationMMSS("01:39");
  }

  // ---------------------------------------------------------------------
  // getCallType

  /** First-match prefix classification of a (normalised) number. Python
      fails on `number[2]` when the number is exactly "07". */
  function GetCallType(number: string): (t: CallType)
    requires number != "07"
    ensures t == International <==> StartsWith(number, "00")
    ensures t == Landline <==> StartsWith(number, "01") || StartsWith(number, "02")
    ensures t == Free <==> StartsWith(number, "080")
    ensures t == Mobile <==>
      StartsWith(number, "07") && (number[2] != '6' || StartsWith(number, "07624"))
    ensures t == Invalid <==>
      !StartsWith(number, "00") && !StartsWith(number, "01") && !StartsWith(number, "02") &&
      !StartsWith(number, "080") &&
      (StartsWith(number, "07") ==> number[2] == '6' && !StartsWith(number, "07624"))
  {
    if StartsWith(number, "00") then International
    else if StartsWith(number, "01") || StartsWith(number, "02") then Landline
    else if StartsWith(number, "080") then Free
    else if StartsWith(number, "07") then
      if number[2] == '6' then
        if StartsWith(number, "07624") then Mobile else Invalid
      else Mobile
    else Invalid
  }

  /** The classification test vectors of test_phone.py for `07` numbers:
      the Isle of Man `07624` exception, another `076` number, and an
      ordinary mobile. */
  lemma GetCallTypeMobileExamples()
    ensures GetCallType("07624555666") == Mobile
    ensures GetCallType("07655566677") == Invalid
    ensures GetCallType("07555666777") == Mobile
  {
    NotStartsWith("07624555666", "00", 1);
    NotStartsWith("07655566677", "00", 1);
    NotStartsWith("07555666777", "00", 1);
    NotStartsWith("07655566677", "07624", 3);
  }

  /** The remaining classification test vectors of test_phone.py on numbers
      already in canonical form. */
  lemma GetCallTypeOtherExamples()
    ensures GetCallType("08005556667") == Free
    ensures GetCallType("08885556667") == Invalid
    ensures GetCallType("01234567890") == Landline
    ensures GetCallType("02012345678") == Landline
    ensures GetCallType("03333444555") == Invalid
    ensures GetCallType("00111222333444") == International
  {
    NotStartsWith("08005556667", "00", 1);
    NotStartsWith("08885556667", "00", 1);
    NotStartsWith("08885556667", "080", 2);
    NotStartsWith("08885556667", "07", 1);
    NotStartsWith("01234567890", "00", 1);
    NotStartsWith("02012345678", "00", 1);
    NotStartsWith("03333444555", "00", 1);
    NotStartsWith("03333444555", "080", 1);
    NotStartsWith("03333444555", "07", 1);
  }

  // ---------------------------------------------------------------------
  // The call-log record

  /** A call-log entry as `CallLog.__init__` stores it. The start time is kept
      as the raw ISO-8601 text and the direction verbatim; the duration is in
      seconds. */
  datatype CallLog = CallLog(number: string, startTime: string, duration: nat, direction: string)

  /** `CallLog(number, startTime, duration, direction)`: the number is stored
      in canonical form and the duration as seconds. */
  function NewCallLog(number: string, startTime: string, duration: string, direction: string): (c: CallLog)
    requires |number| > 0 && WellFormedDuration(duration)
    ensures c.number == NormaliseNumber(number)
    ensures c.duration == ParseDuration(duration)
    ensures c.startTime == startTime && c.direction == direction
  {
    CallLog(NormaliseNumber(number), startTime, ParseDuration(duration), direction)
  }

  /** A number dialled with `+` but not `+44` is international once stored. */
  lemma PlusNumberIsInternational(rest: string, startTime: string, duration: string, direction: string)
    requires !StartsWith(rest, "44") && WellFormedDuration(duration)
    ensures var n := NewCallLog("+" + rest, startTime, duration, direction).number;
      n != "07" && GetCallType(n) == International
  {
    var number := "+" + rest;
    assert number[1..] == rest;
    if |rest| < 2 {
      NotStartsWith(number, "+44", 1 + |rest|);
    } else if rest[0] != '4' {
      NotStartsWith(number, "+44", 1);
    } else {
      assert rest[..2] == [rest[0], rest[1]];
      NotStartsWith(number, "+44", 2);
    }
    NormalisePlusOther(number);
    var n := NormaliseNumber(number);
    assert n == "00" + ExpandChar(rest, '+', "00");
    assert n[..2] == "00" && n[1] == '0';
  }

  /** The raw shapes that phone.py stores as a `00…` number: `+` without
      `+44`, `+44` followed by `0` or `+`, `0044` followed by `0`, and `00`
      without `0044`. */
  predicate DialledInternationally(number: string)
  {
    (StartsWith(number, "+") && !StartsWith(number, "+44"))
    || StartsWith(number, "+440") || StartsWith(number, "+44+")
    || StartsWith(number, "00440")
    || (StartsWith(number, "00") && !StartsWith(number, "0044"))
  }

  /** The first character of a `+` expansion. */
  lemma ExpandedHead(x: string)
    requires x != []
    ensures ExpandChar(x, '+', "00") != []
    ensures ExpandChar(x, '+', "00")[0] == if x[0] == '+' then '0' else x[0]
  {
  }

  /** `"0" + y` starts with `00` exactly when `y` starts with `0`. */
  lemma ZeroPrefixed(y: string)
    ensures StartsWith("0" + y, "00") <==> StartsWith(y, "0")
  {
    if |y| > 0 {
      assert ("0" + y)[..2] == ['0', y[0]];
      assert y[..1] == [y[0]];
    } else {
      NotStartsWith("0" + y, "00", 1);
    }
  }

  /** The canonical form starts with `00` exactly for the raw shapes of
      `DialledInternationally`. */
  lemma NormalisedInternational(number: string)
    requires |number| > 0
    ensures StartsWith(NormaliseNumber(number), "00") <==> DialledInternationally(number)
  {
    var n := NormaliseNumber(number);
    if number[0] == '+' {
      assert StartsWith(number, "+");
      NotStartsWith(number, "00", 0);
      NotStartsWith(number, "00440", 0);
      if StartsWith(number, "+44") {
        NormalisePlus44(number);
        var x := number[3..];
        ZeroPrefixed(ExpandChar(x, '+', "00"));
        if x == [] {
          NotStartsWith(number, "+440", 3);
          NotStartsWith(number, "+44+", 3);
          NotStartsWith(ExpandChar(x, '+', "00"), "0", 0);
        } else {
          ExpandedHead(x);
          assert number[..4] == number[..3] + [x[0]];
          var e := ExpandChar(x, '+', "00");
          assert StartsWith(e, "0") <==> e[0] == '0' by {
            assert e[..1] == [e[0]];
          }
        }
      } else {
        NormalisePlusOther(number);
        assert ExpandChar(number, '+', "00") == "00" + ExpandChar(number[1..], '+', "00");
      }
    } else {
      NotStartsWith(number, "+", 0);
      NotStartsWith(number, "+440", 0);
      NotStartsWith(number, "+44+", 0);
      if StartsWith(number, "0044") {
        NormaliseDoubleZero44(number);
        var y := number[4..];
        ZeroPrefixed(y);
        if y == [] {
          NotStartsWith(number, "00440", 4);
          NotStartsWith(y, "0", 0);
        } else {
          assert number[..5] == number[..4] + [y[0]];
          assert StartsWith(y, "0") <==> y[0] == '0' by {
            assert y[..1] == [y[0]];
          }
        }
      } else {
        NormaliseUnchanged(number);
      }
    }
  }

  /** Classifying a stored call from the raw number alone: it is
      international exactly for the shapes of `DialledInternationally`
      (so `+440…` and `00440…` are international too). */
  lemma CallLogRawInternational(number: string, startTime: string, duration: string, direction: string)
    requires |number| > 0 && WellFormedDuration(duration)
    ensures var n := NewCallLog(number, startTime, duration, direction).number;
      DialledInternationally(number) ==> n != "07" && GetCallType(n) == International
    ensures var n := NewCallLog(number, startTime, duration, direction).number;
      !DialledInternationally(number) && n != "07" ==> GetCallType(n) != International
  {
    NormalisedInternational(number);
    var n := NormaliseNumber(number);
    if StartsWith(n, "00") {
      assert n[1] == '0';
    }
  }

  /** A UK number dialled as `0044…` is stored as `0…`, whatever follows the
      prefix; dialled as `+44…` it is stored as `0…` when the rest has no `+`
      (each later `+` would become `00`). A rest starting with `044` is no
      exception: `+44044123` and `0044044123` are both stored as `0044123`. */
  lemma CallLogUkForms(national: string, startTime: string, duration: string, direction: string)
    requires WellFormedDuration(duration)
    ensures '+' !in national ==>
      NewCallLog("+44" + national, startTime, duration, direction).number == "0" + national
    ensures NewCallLog("0044" + national, startTime, duration, direction).number == "0" + national
  {
    var p := "+44" + national;
    assert p[..3] == "+44" && p[3..] == national;
    NormalisePlus44(p);
    if '+' !in national {
      ExpandCharAbsent(national, '+', "00");
    }
    var z := "0044" + national;
    assert z[..4] == "0044" && z[4..] == national;
    NormaliseDoubleZero44(z);
  }

  /** A UK prefix followed by a second `0044` is collapsed only once, so
      `+44044123` and `0044044123` are stored as `0044123` and classified
      international. */
  lemma CallLogRepeatedUkPrefix(national: string, startTime: string, duration: string, direction: string)
    requires national == "044123" && WellFormedDuration(duration)
    ensures var n := NewCallLog("+44" + national, startTime, duration, direction).number;
      n == "0" + national && n != "07" && GetCallType(n) == International
    ensures var n := NewCallLog("0044" + national, startTime, duration, direction).number;
      n == "0" + national && n != "07" && GetCallType(n) == International
  {
    CallLogUkForms(national, startTime, duration, direction);
    var n := "0" + national;
    assert n[..2] == "00";
  }

  /** Test vector of test_phone.py: `+111222333444` is international. */
  lemma CallLogInternationalExample(rest: string, startTime: string, duration: string, direction: string)
    requires rest == "111222333444" && WellFormedDuration(duration)
    ensures var n := NewCallLog("+" + rest, startTime, duration, direction).number;
      n != "07" && GetCallType(n) == International
  {
    NotStartsWith(rest, "44", 1);
    PlusNumberIsInternational(rest, startTime, duration, direction);
  }

  /** Test vectors of test_phone.py: the Isle of Man mobile `7624555666`
      dialled as `+447624555666` or `00447624555666` is stored as
      `07624555666` and classified mobile. */
  lemma CallLogManxExamples(manx: string, startTime: string, duration: string, direction: string)
    requires manx == "7624555666" && WellFormedDuration(duration)
    ensures var n := NewCallLog("+44" + manx, startTime, duration, direction).number;
      n != "07" && GetCallType(n) == Mobile
    ensures var n := NewCallLog("0044" + manx, startTime, duration, direction).number;
      n != "07" && GetCallType(n) == Mobile
  {
    CallLogUkForms(manx, startTime, duration, direction);
    var n := "0" + manx;
    assert n[..2] == "07" && n[..5] == "07624";
    NotStartsWith(n, "00", 1);
    NotStartsWith(n, "01", 1);
    NotStartsWith(n, "02", 1);
    NotStartsWith(n, "080", 1);
  }

  /** Test vector of test_phone.py: the freephone number `+448005556667` is
      stored as `08005556667` and classified free. */
  lemma CallLogFreeExample(free: string, startTime: string, duration: string, direction: string)
    requires free == "8005556667" && WellFormedDuration(duration)
    ensures var n := NewCallLog("+44" + free, startTime, duration, direction).number;
      n != "07" && GetCallType(n) == Free
  {
    CallLogUkForms(free, startTime, duration, direction);
    var n := "0" + free;
    assert n[..3] == "080";
    NotStartsWith(n, "00", 1);
    NotStartsWith(n, "01", 1);
    NotStartsWith(n, "02", 1);
  }

  /** The `07` test vectors of test_phone.py through the constructor: each
      number is already canonical, so it is stored unchanged and classified
      as such. */
  lemma CallLogMobileExamples(startTime: string, duration: string, direction: string)
    requires WellFormedDuration(duration)
    ensures GetCallType(NewCallLog("07624555666", startTime, duration, direction).number) == Mobile
    ensures GetCallType(NewCallLog("07655566677", startTime, duration, direction).number) == Invalid
    ensures GetCallType(NewCallLog("07555666777", startTime, duration, direction).number) == Mobile
  {
    NotStartsWith("07624555666", "0044", 1);
    NotStartsWith("07655566677", "0044", 1);
    NotStartsWith("07555666777", "0044", 1);
    NormaliseUnchanged("07624555666");
    NormaliseUnchanged("07655566677");
    NormaliseUnchanged("07555666777");
    GetCallTypeMobileExamples();
  }

  /** The remaining canonical test vectors of test_phone.py through the
      constructor. */
  lemma CallLogOtherExamples(startTime: string, duration: string, direction: string)
    requires WellFormedDuration(duration)
    ensures GetCallType(NewCallLog("08005556667", startTime, duration, direction).number) == Free
    ensures GetCallType(NewCallLog("08885556667", startTime, duration, direction).number) == Invalid
    ensures GetCallType(NewCallLog("01234567890", startTime, duration, direction).number) == Landline
    ensures GetCallType(NewCallLog("02012345678", startTime, duration, direction).number) == Landline
    ensures GetCallType(NewCallLog("03333444555", startTime, duration, direction).number) == Invalid
    ensures GetCallType(NewCallLog("00111222333444", startTime, duration, direction).number) == International
  {
    NotStartsWith("08005556667", "0044", 1);
    NotStartsWith("08885556667", "0044", 1);
    NotStartsWith("01234567890", "0044", 1);
    NotStartsWith("02012345678", "0044", 1);
    NotStartsWith("03333444555", "0044", 1);
    NotStartsWith("00111222333444", "0044", 2);
    NormaliseUnchanged("08005556667");
    NormaliseUnchanged("08885556667");
    NormaliseUnchanged("01234567890");
    NormaliseUnchanged("02012345678");
    NormaliseUnchanged("03333444555");
    NormaliseUnchanged("00111222333444");
    GetCallTypeOtherExamples();
  }

  /** The constructor accepts `+447` and `00447` but stores the bare prefix
      `07`, on which classification fails (`number[2]` is out of range). */
  lemma CallLogStoresBareMobilePrefix(national: string, startTime: string, duration: string, direction: string)
    requires national == "7" && WellFormedDuration(duration)
    ensures NewCallLog("+44" + national, startTime, duration, direction).number == "07"
    ensures NewCallLog("0044" + national, startTime, duration, direction).number == "07"
  {
    CallLogUkForms(national, startTime, duration, direction);
  }
}
