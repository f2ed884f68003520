# Phone numbers: a Dafny model of `CallLog`

This project models the `CallLog` record of phone.py, the part of the phone
call-log challenge that turns raw call-log fields into comparable values:

- **number normalisation** (`CallLog.normaliseNumber`): a number dialled with
  a leading `+` has every `+` replaced by `00`; then a leading `0044` (the UK
  country code 44 behind the international prefix `00`) is collapsed, once,
  to `0`;
- **duration parsing** (`CallLog.parseDuration`): a zero-padded `"MM:SS"`
  becomes an elapsed time, here an integer number of seconds;
- **call-type classification** (`CallLog.getCallType`): first-match prefix
  rules give `international` (`00`), `landline` (`01`, `02`), `free` (`080`),
  `mobile` (`07`, except `076…` numbers other than the Isle of Man `07624…`,
  which are `invalid`) or `invalid`;
- **the constructor** (`CallLog.__init__`), which stores the normalised
  number, so every classification runs on the canonical form.

Everything is pure: strings are `seq<char>`, and phone.py's uses of
`str.startswith`, `str.replace` and `int` are written out in module `Text`
(text.dfy) with Python's semantics (`replace` scans left to right and replaces
non-overlapping occurrences; `replace(…, 1)` only the leftmost one). Module
`Phone` (phone.dfy) holds the record, the three operations and their lemmas.
Each operation is paired with an independent description it is proved
against: `str.replace` of one character against a character-by-character
expansion (`ExpandChar`), the whole normalisation against a case split on the
raw number's shape (`NormaliseSpec`), duration parsing against a formatter it
inverts (`ParseFormatRoundTrip`), and classification against an order-free
"exactly when" characterisation of each label (the contract of `GetCallType`).

Python raises an `IndexError` on `number[0]` for an empty number and on
`number[2]` for the number `"07"`, a `ValueError` from `int` on
non-numeric duration fields, and an `OverflowError` from `timedelta` when the
duration reaches 999 999 999 days plus one day. The model states these failure
conditions as preconditions: `|number| > 0`, `number != "07"` and
`WellFormedDuration`.

Three consequences of phone.py as written:

- Every `+` is replaced by `00`, not only the leading one (`PlusStep`).
- `0044` is collapsed only once, so normalisation is not idempotent:
  `004404412` normalises to `004412`, which normalises to `012`
  (`NormaliseNotIdempotent`).
- `getCallType` raises `IndexError` on the number `"07"` (the precondition of
  `GetCallType`). The constructor stores exactly that number for the raw
  numbers `07`, `+447` and `00447` (`CallLogStoresBareMobilePrefix`), so a
  call log built from them cannot be classified.

## Model

| member | source | states |
|---|---|---|
| Text.ReplaceAllChar | phone.py:18 | `str.replace` of a single character equals replacing that character everywhere and keeping every other character in order |
| Text.ExpandCharRemoves | phone.py:17-18 | when the replacement does not contain the character, none of it is left afterwards |
| Text.ExpandCharLength | phone.py:18 | the result is longer by (replacement length − 1) per occurrence, and nothing else changes length |
| Text.ExpandCharAbsent | phone.py:18 | a string without the character is unchanged |
| Text.ReplaceFirstLeftmost | phone.py:21-24 | `s.replace(p, r, 1)` is `s` up to the leftmost occurrence of `p`, then `r`, then everything after that occurrence verbatim, including later occurrences of `p` |
| Text.ReplaceAbsent | phone.py:17-24 | with no occurrence of the pattern, both `replace` and `replace(…, 1)` return the string unchanged |
| Text.DigitsValueBound | phone.py:32-33 | `int` of n decimal digits is below 10^n |
| Text.TwoDigitsValue | phone.py:32 | two digits are worth 10 × the first + the second |
| Text.TwoDigitsRoundTrip | phone.py:32-33 | reading a zero-padded two-digit rendering of n < 100 gives back n |
| Phone.LabelInjective | phone.py:36-55 | the five labels returned by `getCallType` are distinct |
| Phone.PlusStep | phone.py:17-18 | if the first character is `+`, every `+` (not only the first) becomes `00`, no `+` remains and the length grows by one per `+`; otherwise the first step changes nothing |
| Phone.UkPrefixStep | phone.py:20-24 | if the first step's result starts with `0044`, the result is `0` followed by everything after those four characters (later `0044`s kept); otherwise the result is the first step's output |
| Phone.NormalisePlus44 | phone.py:17-24 | `+44…` normalises to `0` followed by the rest with each `+` expanded to `00` |
| Phone.NormalisePlusOther | phone.py:17-24 | any other number starting with `+` only has its `+`s expanded, since the expansion cannot create a leading `0044` |
| Phone.NormaliseDoubleZero44 | phone.py:20-24 | without a leading `+`, a leading `0044` collapses once to `0` and the rest is kept |
| Phone.NormaliseUnchanged | phone.py:17-26 | a number starting with neither `+` nor `0044` is returned unchanged |
| Phone.NormaliseSpec | phone.py:11-26 | the whole normalisation equals a definition by the raw number's shape that uses no `str.replace` |
| Phone.NormaliseRemovesPlus | phone.py:17-18 | a number dialled with a leading `+` contains no `+` once normalised |
| Phone.NormaliseUkForms | phone.py:17-24 | `+44x`, `0044x` and `0x` all normalise to `0x` when x has no `+` and does not start with `044` |
| Phone.NormaliseExamples | test_phone.py:6-8 | `+441615556666`, `00441615556666` and `01615556666` all normalise to `01615556666` |
| Phone.NormaliseKeepsLaterPrefix | phone.py:21-24 | `00441615550044` and `01615550044` both normalise to `01615550044`, so the later `0044` survives |
| Phone.NormaliseNotIdempotent | phone.py:21-24 | `004404412` normalises to `004412`, and normalising again gives `012` |
| Phone.ParseDuration | phone.py:28-34 | accepted exactly when both fields are digits and `timedelta` does not overflow; the parsed number of seconds is below 60 × 100 + 10^(number of characters after the separator) and below 86 400 × 10^9 |
| Text.DigitsValueLower | phone.py:32-33 | `int` of n decimal digits is at least the first digit × 10^(n−1) |
| Phone.DurationLengthLimits | phone.py:32-34 | with digit fields, a seconds field of at most 13 digits is always accepted, and one of 15 or more digits not starting with `0` always makes `timedelta` overflow |
| Phone.ParseDurationMMSS | phone.py:29-34 | a five-character `MM?SS` with digits at positions 0, 1, 3, 4 is accepted and yields 60·MM + SS seconds, whatever the separator; seconds are not range-checked, so the result is at most 99·60 + 99 |
| Phone.ParseFormatRoundTrip | phone.py:28-34 | parsing the zero-padded `MM:SS` text of minutes and seconds below 100 gives 60·minutes + seconds |
| Phone.ParseDurationExamples | phone.py:29-34 | `04:05` (the duration used by the tests) is 245 seconds, as is `04-05`; `00:99` and `01:39` are both 99 seconds |
| Phone.GetCallType | phone.py:36-55 | on any number other than `"07"`: international exactly when it starts `00`; landline exactly when it starts `01` or `02`; free exactly when it starts `080`; mobile exactly when it starts `07` and its third character is not `6` or it starts `07624`; invalid exactly when none of these holds |
| Phone.GetCallTypeMobileExamples | test_phone.py:10-13 | `07624555666` is mobile, `07655566677` invalid, `07555666777` mobile |
| Phone.GetCallTypeOtherExamples | test_phone.py:14-19 | `08005556667` free, `08885556667` invalid, `01234567890` and `02012345678` landline, `03333444555` invalid, `00111222333444` international |
| Phone.NewCallLog | phone.py:5-9 | the record stores the normalised number, the duration in seconds, and the start time and direction as given |
| Phone.NormalisedInternational | phone.py:17-24 | the canonical form starts with `00` exactly when the raw number starts with `+` but not `+44`, with `+440`, `+44+` or `00440`, or with `00` but not `0044` |
| Phone.CallLogRawInternational | phone.py:5-38 | a stored call is international exactly for those raw shapes, so `+440…` and `00440…` are international while other `+44…` and `0044…` numbers are not |
| Phone.PlusNumberIsInternational | phone.py:17-38 | a call dialled with `+` but not `+44` is stored as a `00…` number and is international |
| Phone.CallLogUkForms | phone.py:5-24 | a call dialled as `0044x` is stored with the number `0x` for every x; one dialled as `+44x` is stored as `0x` when x has no `+` |
| Phone.CallLogRepeatedUkPrefix | phone.py:5-38 | `+44044123` and `0044044123` are both stored as `0044123`, since the UK prefix is collapsed only once, and are classified international |
| Phone.CallLogInternationalExample | test_phone.py:20 | a call to `+111222333444` is international |
| Phone.CallLogManxExamples | test_phone.py:21-22 | calls to `+447624555666` and `00447624555666` are mobile |
| Phone.CallLogFreeExample | test_phone.py:23 | a call to `+448005556667` is free |
| Phone.CallLogMobileExamples | test_phone.py:11-13 | calls to `07624555666` and `07555666777` are mobile and to `07655566677` invalid, the numbers being stored unchanged |
| Phone.CallLogOtherExamples | test_phone.py:14-19 | calls to `08005556667` are free, `08885556667` and `03333444555` invalid, `01234567890` and `02012345678` landline, `00111222333444` international, the numbers being stored unchanged |
| Phone.CallLogStoresBareMobilePrefix | phone.py:5-6 | the raw numbers `+447` and `00447` are stored as `07`, the one number `getCallType` cannot classify |

## Left out

- `startTime` parsing (phone.py:7) calls `datetime.fromisoformat`, a library routine that is not part of this model; the record keeps the raw text.
- The `timedelta` built at phone.py:34 is represented by its length in whole seconds.
- `direction` (phone.py:9) is stored verbatim and never inspected, so it stays an uninterpreted string.
- ParseDuration: its precondition admits only ASCII digits in both fields; Python's `int` also accepts surrounding whitespace, a sign, underscores between digits and non-ASCII decimal digits, and those inputs are not modelled.
- ParseDuration: does not model the limit of 4300 digits that `int` enforces from Python 3.11 on. That limit depends on the interpreter version and its configuration. A seconds field longer than 4300 characters is accepted by the model only when it has leading zeros, and Python 3.11+ raises `ValueError` on it.
- The errors phone.py raises are preconditions, not modelled error results: the `ValueError` of `int` at phone.py:32-33 and the `OverflowError` of `timedelta` at phone.py:34 (both `WellFormedDuration`), the `IndexError` of `number[0]` at phone.py:17 (`|number| > 0`) and the `IndexError` of `number[2]` at phone.py:47 (`number != "07"`).
- NewCallLog: accepts any start time, whereas `datetime.fromisoformat` at phone.py:7 raises `ValueError` on a malformed one; that error path is not modelled.
- `Text.ReplaceAll` and `Text.ReplaceFirst` require a non-empty pattern; Python's behaviour for an empty pattern is not modelled because phone.py never uses one.
- Call-cost computation, day/night rates, connection charges and free-minute allowances are not part of this model: phone.py contains none of them.
- The pytest scaffolding of test_phone.py, including its use of `datetime.now()`, is left out; its test vectors are restated as lemmas.
