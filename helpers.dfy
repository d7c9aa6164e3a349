/**
 * The pure helpers of the form class: pattern resolution (`getRegExp`), the
 * calendar check (`isDate`) and the `{id}` substitution used when uploaded
 * files are renamed after the owning record is stored.
 */
module Helpers {
  import opened PhpValue
  import opened Schema

  /** The marker that introduces a literal pattern in a field's `regExp`. */
  const CustomPrefix: string := "custom:"

  // The static `regExp_<name>` properties of the form class.
  const RegExpAlphaNumeric: string := @"/^[0-9a-z\_\-]+$/i"
  const RegExpPassword: string := @"/^[0-9a-z]{6,}$/i"
  const RegExpMail: string := @"/^(?:[\w\!\#\$\%\&'\*\+\-\/\=\?\^\`\{\|\}\~]+\.)*[\w\!\#\$\%\&'\*\+\-\/\=\?\^\`\{\|\}\~]+@(?:(?:(?:[a-zA-Z0-9_](?:[a-zA-Z0-9_\-](?!\.)){0,61}[a-zA-Z0-9_-]?\.)+[a-zA-Z0-9_](?:[a-zA-Z0-9_\-](?!$)){0,61}[a-zA-Z0-9_]?)|(?:\[(?:(?:[01]?\d{1,2}|2[0-4]\d|25[0-5])\.){3}(?:[01]?\d{1,2}|2[0-4]\d|25[0-5])\]))$/"
  const RegExpNumeric: string := @"/^[0-9]+$/"
  const RegExpDate: string := @"/^((19|20)[0-9]{2})\-(0[1-9]|1[012])\-(0[1-9]|[12][0-9]|3[01])$/"
  const RegExpText: string := @"/.{1,}/"
  const RegExpUrl: string := @"/^http\:\/\/www\.[a-z0-9\_\-\?\&]\.[a-z]{2,3}\/$/"
  const RegExpTextNoHtml: string := @"/^[^\<\>]{1,}$/i"
  const RegExpHexa: string := @"/^[0-9a-f]{6}$/i"

  /** The predefined pattern called `name`, if there is one. */
  function NamedPattern(name: string): (r: Option<string>)
    ensures r.Some? ==> r.value != ""
  {
    if name == "AlphaNumeric" then Some(RegExpAlphaNumeric)
    else if name == "Password" then Some(RegExpPassword)
    else if name == "Mail" then Some(RegExpMail)
    else if name == "Numeric" then Some(RegExpNumeric)
    else if name == "Date" then Some(RegExpDate)
    else if name == "Text" then Some(RegExpText)
    else if name == "Url" then Some(RegExpUrl)
    else if name == "TextNoHtml" then Some(RegExpTextNoHtml)
    else if name == "Hexa" then Some(RegExpHexa)
    else None
  }

  predicate IsCustom(name: string)
  {
    |name| >= |CustomPrefix| && name[..|CustomPrefix|] == CustomPrefix
  }

  /** `getRegExp`: a custom declaration yields the text after the marker, a
      known name its predefined pattern, and anything else the empty pattern. */
  function GetRegExp(name: string): (r: string)
    ensures IsCustom(name) ==> r == name[|CustomPrefix|..]
    ensures !IsCustom(name) && NamedPattern(name).Some? ==> r == NamedPattern(name).value
    ensures !IsCustom(name) ==> (r == "" <==> NamedPattern(name).None?)
  {
    if IsCustom(name) then name[|CustomPrefix|..]
    else if NamedPattern(name).Some? then NamedPattern(name).value
    else ""
  }

  /** Declaring `custom:<p>` gives back exactly `<p>`. */
  lemma GetRegExpCustomRoundTrip(p: string)
    ensures GetRegExp(CustomPrefix + p) == p
  {
    assert (CustomPrefix + p)[..|CustomPrefix|] == CustomPrefix;
    assert (CustomPrefix + p)[|CustomPrefix|..] == p;
  }

  /** No predefined name starts with the custom marker, so every predefined
      name resolves to its pattern. */
  lemma GetRegExpNamed(name: string)
    requires NamedPattern(name).Some?
    ensures !IsCustom(name)
    ensures GetRegExp(name) == NamedPattern(name).value
  {
    assert name[0] != CustomPrefix[0];
    assert |name| >= |CustomPrefix| ==> name[..|CustomPrefix|][0] == name[0];
  }

  // ---------------------------------------------------------------- isDate

  predicate IsDigit(c: char)
  {
    '0' <= c <= '9'
  }

  function Digit(c: char): (d: int)
    requires IsDigit(c)
    ensures 0 <= d <= 9
  {
    c as int - '0' as int
  }

  /** The text matches the date pattern: a 19xx or 20xx year, a month 01-12 and
      a day 01-31 separated by dashes. PCRE's `$` also lets one final newline through. */
  predicate DateShape(s: string)
  {
    && (|s| == 10 || (|s| == 11 && s[10] == '\n'))
    && ((s[0] == '1' && s[1] == '9') || (s[0] == '2' && s[1] == '0'))
    && IsDigit(s[2]) && IsDigit(s[3]) && s[4] == '-'
    && ((s[5] == '0' && '1' <= s[6] <= '9') || (s[5] == '1' && '0' <= s[6] <= '2'))
    && s[7] == '-'
    && ((s[8] == '0' && '1' <= s[9] <= '9')
        || ((s[8] == '1' || s[8] == '2') && IsDigit(s[9]))
        || (s[8] == '3' && (s[9] == '0' || s[9] == '1')))
  }

  function Year(s: string): (y: int)
    requires DateShape(s)
    ensures 1900 <= y <= 2099
  {
    1000 * Digit(s[0]) + 100 * Digit(s[1]) + 10 * Digit(s[2]) + Digit(s[3])
  }

  function Month(s: string): (m: int)
    requires DateShape(s)
    ensures 1 <= m <= 12
  {
    10 * Digit(s[5]) + Digit(s[6])
  }

  function Day(s: string): (d: int)
    requires DateShape(s)
    ensures 1 <= d <= 31
  {
    10 * Digit(s[8]) + Digit(s[9])
  }

  /** `isDate` as written: the 30-day months are listed as April, June,
      September and February, and the leap-year test reads
      `y % 4 == 0 && (y % 100 != 0 || y % 400 != 0)`. */
  function IsDate(s: string): (r: bool)
    ensures r ==> DateShape(s)
  {
    DateShape(s) &&
    var y, m, d := Year(s), Month(s), Day(s);
    && !(d == 31 && m in [4, 6, 9, 2])
    && !(d >= 30 && m == 2)
    && !(d == 29 && m == 2 && !(y % 4 == 0 && (y % 100 != 0 || y % 400 != 0)))
  }

  /** The Gregorian leap-year rule. */
  predicate IsLeapYear(y: int)
  {
    y % 4 == 0 && (y % 100 != 0 || y % 400 == 0)
  }

  function DaysInMonth(y: int, m: int): (n: int)
    ensures 28 <= n <= 31
  {
    if m == 2 then (if IsLeapYear(y) then 29 else 28)
    else if m in [4, 6, 9, 11] then 30
    else 31
  }

  /** The calendar check `isDate` evidently intends: the date has the right
      shape and names a day that exists in the Gregorian calendar. */
  predicate IsCalendarDate(s: string)
  {
    DateShape(s) && Day(s) <= DaysInMonth(Year(s), Month(s))
  }

  /** The corrected check accepts the 31st exactly in the seven 31-day months. */
  lemma CalendarDateDay31(s: string)
    requires DateShape(s) && Day(s) == 31
    ensures IsCalendarDate(s) <==> Month(s) in [1, 3, 5, 7, 8, 10, 12]
  {
  }

  /** The corrected check accepts the 29th of February exactly in leap years. */
  lemma CalendarDateLeapDay(s: string)
    requires DateShape(s) && Month(s) == 2 && Day(s) == 29
    ensures IsCalendarDate(s) <==> IsLeapYear(Year(s))
  {
  }

  /** Within the years the pattern admits, `isDate` and the calendar disagree
      exactly on the 31st of November and on the 29th of February of 1900 and 2000. */
  lemma IsDateDeviations(s: string)
    ensures IsDate(s) != IsCalendarDate(s) <==>
      DateShape(s) && ((Month(s) == 11 && Day(s) == 31)
                       || (Month(s) == 2 && Day(s) == 29 && (Year(s) == 1900 || Year(s) == 2000)))
  {
    if DateShape(s) {
      var y := Year(s);
      assert y % 4 == 0 && y % 100 == 0 ==> y == 1900 || y == 2000;
      assert y == 2000 ==> y % 400 == 0;
    }
  }

  /** `isDate` accepts a 31st of November, which does not exist. */
  lemma IsDateAcceptsNovember31()
    ensures DateShape("2021-11-31")
    ensures IsDate("2021-11-31") && !IsCalendarDate("2021-11-31")
  {
  }

  /** `isDate` rejects the existing 29th of February 2000 and accepts the
      non-existing 29th of February 1900. */
  lemma IsDateLeapCenturies()
    ensures DateShape("2000-02-29") && DateShape("1900-02-29")
    ensures !IsDate("2000-02-29") && IsCalendarDate("2000-02-29")
    ensures IsDate("1900-02-29") && !IsCalendarDate("1900-02-29")
  {
  }

  // ---------------------------------------------------- {id} substitution

  /** The root folder every upload is stored under. */
  const UploadFolder: string := "files/uploads/"

  const IdPlaceholder: string := "{id}"

  /** The template contains `{id}` somewhere. */
  predicate HasIdPlaceholder(t: string)
    decreases |t|
  {
    |t| >= 4 && (t[..4] == IdPlaceholder || HasIdPlaceholder(t[1..]))
  }

  /** Every `{id}` of the template replaced by `id`, scanning left to right. */
  function ReplaceId(t: string, id: string): string
    decreases |t|
  {
    if |t| < 4 then t
    else if t[..4] == IdPlaceholder then id + ReplaceId(t[4..], id)
    else [t[0]] + ReplaceId(t[1..], id)
  }

  /** A template without a placeholder is left unchanged. */
  lemma {:induction false} ReplaceIdWithoutPlaceholder(t: string, id: string)
    requires !HasIdPlaceholder(t)
    ensures ReplaceId(t, id) == t
    decreases |t|
  {
    if |t| >= 4 {
      ReplaceIdWithoutPlaceholder(t[1..], id);
      assert [t[0]] + t[1..] == t;
    }
  }

  /** Substituting the placeholder for itself gives back the template. */
  lemma {:induction false} ReplaceIdByPlaceholder(t: string)
    ensures ReplaceId(t, IdPlaceholder) == t
    decreases |t|
  {
    if |t| >= 4 {
      if t[..4] == IdPlaceholder {
        ReplaceIdByPlaceholder(t[4..]);
        assert t[..4] + t[4..] == t;
      } else {
        ReplaceIdByPlaceholder(t[1..]);
        assert [t[0]] + t[1..] == t;
      }
    }
  }

  /** The new path `setUploadFileName` asks the storage to move an upload field's
      file to: only for an upload field with a bound value whose file name
      template contains `{id}`. */
  function RenamedPath(f: FieldSpec, bound: Value, id: string): (r: Option<string>)
    ensures r.Some? <==> HasTag(f, TagUpload) && !Empty(bound) && f.fileName.Some?
                         && HasIdPlaceholder(f.fileName.value)
    ensures r.Some? ==> |r.value| >= |UploadFolder| && r.value[..|UploadFolder|] == UploadFolder
  {
    if HasTag(f, TagUpload) && !Empty(bound) && f.fileName.Some? && HasIdPlaceholder(f.fileName.value)
    then
      var folder := if f.folder.Some? then f.folder.value else "";
      Some(UploadFolder + folder + ReplaceId(f.fileName.value, id))
    else None
  }
}
