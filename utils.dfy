/** The string and number helpers of the client (src/lib/utils.ts): text
    truncation, conversation titles, UUID validation, relative timestamps and
    device classes by viewport width. The clock, the locale's date text and the
    window width are parameters. */
module Utils {
  import opened Strings

  /** `text.substring(0, maxLength) + "..."` when the text is longer than
      `maxLength`; a negative `maxLength` keeps no character, as `substring` does. */
  function TruncateText(text: string, maxLength: int): (r: string)
    ensures |text| <= maxLength ==> r == text
    ensures 0 <= maxLength < |text| ==>
              |r| == maxLength + 3 && r[..maxLength] == text[..maxLength] && r[maxLength..] == "..."
    ensures maxLength < 0 ==> r == "..."
  {
    if |text| <= maxLength then text
    else text[..if maxLength < 0 then 0 else maxLength] + "..."
  }

  /** Truncating twice to the same length is truncating once. */
  lemma TruncateIdempotent(text: string, maxLength: int)
    ensures TruncateText(TruncateText(text, maxLength), maxLength) == TruncateText(text, maxLength)
  {
    if 0 <= maxLength < |text| {
      var r := TruncateText(text, maxLength);
      assert r[..maxLength] == text[..maxLength];
    }
  }

  const TitleLength := 30

  /** The first message cut to 30 characters, or "Chat <date>" when that is empty. */
  function GenerateConversationTitle(firstMessage: string, localeDate: string): (r: string)
    ensures firstMessage != [] ==> r == TruncateText(firstMessage, TitleLength) && 0 < |r| <= TitleLength + 3
    ensures firstMessage != [] ==> r[..if |firstMessage| < TitleLength then |firstMessage| else TitleLength]
                                    == firstMessage[..if |firstMessage| < TitleLength then |firstMessage| else TitleLength]
    ensures firstMessage == [] ==> r == "Chat " + localeDate
  {
    var truncated := TruncateText(firstMessage, TitleLength);
    if truncated != [] then truncated else "Chat " + localeDate
  }

  /** A character class of the UUID pattern (matched case-insensitively). */
  datatype CharClass = HexDigit | Hyphen | VersionDigit | VariantDigit

  predicate InClass(c: char, k: CharClass) {
    match k
    case HexDigit => '0' <= c <= '9' || 'a' <= c <= 'f' || 'A' <= c <= 'F'
    case Hyphen => c == '-'
    case VersionDigit => '1' <= c <= '5'
    case VariantDigit => c == '8' || c == '9' || c == 'a' || c == 'b' || c == 'A' || c == 'B'
  }

  predicate AllIn(t: string, k: CharClass) {
    forall i :: 0 <= i < |t| ==> InClass(t[i], k)
  }

  /** The anchored, case-insensitive pattern
      `^[0-9a-f]{8}-[0-9a-f]{4}-[1-5][0-9a-f]{3}-[89ab][0-9a-f]{3}-[0-9a-f]{12}$`,
      group by group. */
  predicate UuidPatternMatches(s: string) {
    |s| == 36
    && AllIn(s[..8], HexDigit) && s[8] == '-'
    && AllIn(s[9..13], HexDigit) && s[13] == '-'
    && InClass(s[14], VersionDigit) && AllIn(s[15..18], HexDigit) && s[18] == '-'
    && InClass(s[19], VariantDigit) && AllIn(s[20..23], HexDigit) && s[23] == '-'
    && AllIn(s[24..], HexDigit)
  }

  /** `isValidUUID`: the pattern's verdict, which is the per-position layout check. */
  function IsValidUUID(s: string): (b: bool)
    ensures b <==> FitsLayout(s)
  {
    UuidPatternFitsLayout(s);
    UuidPatternMatches(s)
  }

  /** The class the pattern requires at each of the 36 positions. */
  function ClassAt(i: nat): CharClass {
    if i == 8 || i == 13 || i == 18 || i == 23 then Hyphen
    else if i == 14 then VersionDigit
    else if i == 19 then VariantDigit
    else HexDigit
  }

  /** The same check position by position. */
  predicate FitsLayout(s: string) {
    |s| == 36 && forall i :: 0 <= i < |s| ==> InClass(s[i], ClassAt(i))
  }

  lemma AllInSlice(s: string, lo: nat, hi: nat, k: CharClass)
    requires lo <= hi <= |s|
    ensures AllIn(s[lo..hi], k) <==> forall i :: lo <= i < hi ==> InClass(s[i], k)
  {
    if forall i :: lo <= i < hi ==> InClass(s[i], k) {
      forall i | 0 <= i < hi - lo ensures InClass(s[lo..hi][i], k) {
        assert s[lo..hi][i] == s[lo + i];
      }
    }
    if AllIn(s[lo..hi], k) {
      forall i | lo <= i < hi ensures InClass(s[i], k) {
        assert s[i] == s[lo..hi][i - lo];
      }
    }
  }

  /** The grouped pattern and the per-position layout accept the same strings. */
  lemma UuidPatternFitsLayout(s: string)
    ensures UuidPatternMatches(s) <==> FitsLayout(s)
  {
    if |s| == 36 {
      assert s[..8] == s[0..8] && s[24..] == s[24..36];
      AllInSlice(s, 0, 8, HexDigit);
      AllInSlice(s, 9, 13, HexDigit);
      AllInSlice(s, 15, 18, HexDigit);
      AllInSlice(s, 20, 23, HexDigit);
      AllInSlice(s, 24, 36, HexDigit);
      if UuidPatternMatches(s) {
        forall i | 0 <= i < 36 ensures InClass(s[i], ClassAt(i)) {
          if i == 8 || i == 13 || i == 18 || i == 23 {
            assert s[i] == '-';
          }
        }
      }
      if FitsLayout(s) {
        assert InClass(s[8], ClassAt(8)) && InClass(s[13], ClassAt(13));
        assert InClass(s[14], ClassAt(14)) && InClass(s[18], ClassAt(18));
        assert InClass(s[19], ClassAt(19)) && InClass(s[23], ClassAt(23));
      }
    }
  }

  function ToLowerChar(c: char): char {
    if 'A' <= c <= 'Z' then (c as int - 'A' as int + 'a' as int) as char else c
  }

  function ToLower(s: string): (r: string)
    ensures |r| == |s| && forall i :: 0 <= i < |s| ==> r[i] == ToLowerChar(s[i])
  {
    seq(|s|, i requires 0 <= i < |s| => ToLowerChar(s[i]))
  }

  /** Validation ignores letter case. */
  lemma IsValidUUIDCaseInsensitive(s: string)
    ensures IsValidUUID(s) <==> IsValidUUID(ToLower(s))
  {
    var t := ToLower(s);
    forall i | 0 <= i < |s| ensures InClass(s[i], ClassAt(i)) <==> InClass(t[i], ClassAt(i)) {
      assert t[i] == ToLowerChar(s[i]);
    }
  }

  const MsPerMinute := 60_000       // 1000 * 60
  const MsPerHour := 3_600_000      // 1000 * 60 * 60
  const MsPerDay := 86_400_000      // 1000 * 60 * 60 * 24
  const MsPerWeek := 604_800_000    // seven days

  /** How long ago a timestamp was, as `formatTimestamp` describes it. */
  datatype Age = JustNow | MinutesAgo(minutes: int) | HoursAgo(hours: int) | DaysAgo(days: int) | OnDate

  /** The bucket of a difference `now - timestamp` in milliseconds; the counts are
      `Math.floor(diff / unit)`, which for a positive unit is Dafny's `/`. */
  function AgeOf(diffInMs: int): (a: Age)
    ensures a == JustNow <==> diffInMs < MsPerMinute
    ensures a.MinutesAgo? <==> MsPerMinute <= diffInMs < MsPerHour
    ensures a.HoursAgo? <==> MsPerHour <= diffInMs < MsPerDay
    ensures a.DaysAgo? <==> MsPerDay <= diffInMs < MsPerWeek
    ensures a == OnDate <==> MsPerWeek <= diffInMs
    ensures a.MinutesAgo? ==>
              1 <= a.minutes <= 59 && a.minutes * MsPerMinute <= diffInMs < (a.minutes + 1) * MsPerMinute
    ensures a.HoursAgo? ==>
              1 <= a.hours <= 23 && a.hours * MsPerHour <= diffInMs < (a.hours + 1) * MsPerHour
    ensures a.DaysAgo? ==>
              1 <= a.days <= 6 && a.days * MsPerDay <= diffInMs < (a.days + 1) * MsPerDay
  {
    var minutes := diffInMs / MsPerMinute;
    var hours := diffInMs / MsPerHour;
    var days := diffInMs / MsPerDay;
    if minutes < 1 then JustNow
    else if minutes < 60 then MinutesAgo(minutes)
    else if hours < 24 then HoursAgo(hours)
    else if days < 7 then DaysAgo(days)
    else OnDate
  }

  /** `r` is the shortest decimal numeral of `n`, with no leading zero, followed by `suffix`. */
  ghost predicate RendersCount(r: string, n: int, suffix: string) {
    |r| > |suffix| && r[|r| - |suffix|..] == suffix
    && AllDigits(r[..|r| - |suffix|]) && DecimalValue(r[..|r| - |suffix|]) == n
    && (|r| - |suffix| > 1 ==> r[0] != '0')
  }

  function FormatTimestamp(diffInMs: int, localeDate: string): (r: string)
    ensures diffInMs < MsPerMinute ==> r == "Just now"
    ensures AgeOf(diffInMs).MinutesAgo? ==> RendersCount(r, AgeOf(diffInMs).minutes, "m ago")
    ensures AgeOf(diffInMs).HoursAgo? ==> RendersCount(r, AgeOf(diffInMs).hours, "h ago")
    ensures AgeOf(diffInMs).DaysAgo? ==> RendersCount(r, AgeOf(diffInMs).days, "d ago")
    ensures MsPerWeek <= diffInMs ==> r == localeDate
  {
    match AgeOf(diffInMs)
    case JustNow => "Just now"
    case MinutesAgo(n) => Counted(n, "m ago")
    case HoursAgo(n) => Counted(n, "h ago")
    case DaysAgo(n) => Counted(n, "d ago")
    case OnDate => localeDate
  }

  function Counted(n: nat, suffix: string): (r: string)
    ensures RendersCount(r, n, suffix)
  {
    var digits := NatToString(n);
    var r := digits + suffix;
    assert r[..|r| - |suffix|] == digits && r[|r| - |suffix|..] == suffix;
    assert r[0] == digits[0];
    r
  }

  datatype DeviceType = Mobile | Tablet | Desktop

  function GetDeviceType(width: int): (d: DeviceType)
    ensures d == Mobile <==> width <= 768
    ensures d == Tablet <==> 768 < width <= 992
    ensures d == Desktop <==> 992 < width
  {
    if width <= 768 then Mobile
    else if width <= 992 then Tablet
    else Desktop
  }

  function IsMobileDevice(width: int): (b: bool)
    ensures b <==> GetDeviceType(width) == Mobile
  {
    width <= 768
  }

  function DeviceRank(d: DeviceType): nat {
    match d
    case Mobile => 0
    case Tablet => 1
    case Desktop => 2
  }

  /** A wider window never gets a smaller device class. */
  lemma DeviceTypeMonotone(w1: int, w2: int)
    requires w1 <= w2
    ensures DeviceRank(GetDeviceType(w1)) <= DeviceRank(GetDeviceType(w2))
  {
  }
}
