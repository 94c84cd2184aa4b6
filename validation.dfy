/**
 * The checks a new watcher passes before it is stored: the doctor code taken from the profile
 * URL, the chosen target dates, the notification channel with its credentials, and the parser
 * of the free-text date field (exact dates one per line, or a range of week numbers).
 *
 * Whether a text is a `YYYY-MM-DD` date is the parameter `parseDate`, as in the week-offset
 * computation; formatting a day as `YYYY-MM-DD` is the parameter `formatDate`.
 */
module Validation {
  import opened Wrappers
  import opened Strings
  import opened WeekOffsets
  import Notify

  // ----- doctor code -----

  const CodeMissing := "Could not extract doctor code from URL. URL must end with '-dXXX.html'"

  /** The text a pattern ending in `$` has to end in: Python's `$` matches at the end of the
      string and also just before a final newline.  The patterns here end in a character
      other than a newline, so only the second position can match when there is one. */
  function BeforeFinalNewline(s: string): (r: string)
    ensures s == r || s == r + "\n"
  {
    if |s| > 0 && s[|s| - 1] == '\n' then s[..|s| - 1] else s
  }

  /** `-d(\d+)\.html` at the end of `body`: the digit run just before `.html`, preceded
      by `-d`. */
  function CodeBeforeHtml(body: string): Result<string, string>
  {
    if !IsSuffix(".html", body) then Err(CodeMissing)
    else
      var stem := body[..|body| - 5];
      var n := TrailingRun(stem, IsDigit);
      if n > 0 && IsSuffix("-d", stem[..|stem| - n]) then Ok(stem[|stem| - n..]) else Err(CodeMissing)
  }

  /** `extract_doctor_code`: `re.search(r'-d(\d+)\.html$', url)` and its group, or the
      `ValueError` message. */
  function ExtractDoctorCode(url: string): (r: Result<string, string>)
    ensures r.Err? ==> r.error == CodeMissing
  {
    CodeBeforeHtml(BeforeFinalNewline(url))
  }

  /** `url` ends with `-d`, the digits `code` and `.html`, and at most one newline after. */
  predicate EndsWithCode(url: string, code: string)
  {
    |code| > 0 && AllDigits(code) &&
    (IsSuffix("-d" + code + ".html", url) || IsSuffix("-d" + code + ".html\n", url))
  }

  /** The code is found exactly when the URL ends in the pattern, and it is then the digits
      the URL ends with; the pattern fixes them, so no other code could be reported. */
  lemma ExtractDoctorCodeSpec(url: string, code: string)
    ensures ExtractDoctorCode(url).Ok? ==> EndsWithCode(url, ExtractDoctorCode(url).value)
    ensures EndsWithCode(url, code) ==> ExtractDoctorCode(url) == Ok(code)
  {
    if ExtractDoctorCode(url).Ok? {
      ExtractDoctorCodeSound(url);
    }
    if EndsWithCode(url, code) {
      ExtractDoctorCodeComplete(url, code);
    }
  }

  lemma ExtractDoctorCodeSound(url: string)
    requires ExtractDoctorCode(url).Ok?
    ensures EndsWithCode(url, ExtractDoctorCode(url).value)
  {
    var body := BeforeFinalNewline(url);
    CodeBeforeHtmlSound(body);
    var c := ExtractDoctorCode(url).value;
    var tail := "-d" + c + ".html";
    if url != body {
      SuffixExtend(tail, body, "\n");
      assert tail + "\n" == "-d" + c + ".html\n";
    }
  }

  lemma ExtractDoctorCodeComplete(url: string, code: string)
    requires EndsWithCode(url, code)
    ensures ExtractDoctorCode(url) == Ok(code)
  {
    var body := BeforeFinalNewline(url);
    var tail := "-d" + code + ".html";
    if IsSuffix(tail, url) {
      assert url[|url| - 1] == url[|url| - |tail|..][|tail| - 1];
      assert body == url;
    } else {
      assert "-d" + code + ".html\n" == tail + "\n";
      SuffixTrim(tail, url, "\n");
      assert url[|url| - 1] == url[|url| - 1..][0] == '\n';
      assert body == url[..|url| - 1];
    }
    CodeBeforeHtmlComplete(body, code);
  }

  lemma CodeBeforeHtmlSound(body: string)
    requires CodeBeforeHtml(body).Ok?
    ensures var c := CodeBeforeHtml(body).value;
      |c| > 0 && AllDigits(c) && IsSuffix("-d" + c + ".html", body)
  {
    var stem := body[..|body| - 5];
    var n := TrailingRun(stem, IsDigit);
    var c := stem[|stem| - n..];
    var tail := "-d" + c + ".html";
    assert body == stem + ".html";
    assert stem[|stem| - n - 2..|stem| - n] == "-d";
    assert body[|body| - |tail|..] == stem[|stem| - n - 2..|stem| - n] + c + ".html";
  }

  lemma CodeBeforeHtmlComplete(body: string, code: string)
    requires |code| > 0 && AllDigits(code) && IsSuffix("-d" + code + ".html", body)
    ensures CodeBeforeHtml(body) == Ok(code)
  {
    var pre := body[..|body| - |code| - 7];
    var stem := pre + "-d" + code;
    assert body == stem + ".html";
    HtmlStem(stem);
    CodeAfterMarker(pre, code);
  }

  /** Appending `.html` and cutting it off again gives the stem back. */
  lemma HtmlStem(stem: string)
    ensures var body := stem + ".html";
      IsSuffix(".html", body) && body[..|body| - 5] == stem
  {
  }

  /** In a stem ending `-d` and a digit run, `TrailingRun` finds that run. */
  lemma CodeAfterMarker(pre: string, code: string)
    requires |code| > 0 && AllDigits(code)
    ensures var stem := pre + "-d" + code;
      TrailingRun(stem, IsDigit) == |code| && stem[..|stem| - |code|] == pre + "-d" &&
      stem[|stem| - |code|..] == code
  {
    var stem := pre + "-d" + code;
    assert stem[|stem| - |code| - 1] == 'd';
    forall k | |stem| - |code| <= k < |stem|
      ensures IsDigit(stem[k])
    {
      assert stem[k] == code[k - (|stem| - |code|)];
    }
    TrailingRunStopsAt(stem, IsDigit, |code|);
    assert stem[..|stem| - |code|] == pre + "-d";
    assert stem[|stem| - |code|..] == code;
  }

  // ----- target dates -----

  const NoDateChosen := "Musíte vybrať aspoň jeden dátum"

  function InvalidDate(d: string): string
  {
    "Neplatný dátum: " + d
  }

  /** The first non-empty entry that is not a date, if any. */
  function FirstInvalidDate(dates: seq<string>, parseDate: string -> Option<int>): Option<string>
  {
    if dates == [] then None
    else
      match FirstInvalidDate(dates[..|dates| - 1], parseDate)
      case Some(d) => Some(d)
      case None =>
        var d := dates[|dates| - 1];
        if d != "" && parseDate(d).None? then Some(d) else None
  }

  /** The non-empty entries, each at its first occurrence. */
  function Distinct(dates: seq<string>): seq<string>
  {
    if dates == [] then []
    else
      var prev := Distinct(dates[..|dates| - 1]);
      var d := dates[|dates| - 1];
      if d == "" || d in prev then prev else prev + [d]
  }

  /** The target dates `create_watcher` stores, or the message it rejects the form with. */
  function TargetDatesOf(dates: seq<string>, parseDate: string -> Option<int>): Result<seq<string>, string>
  {
    match FirstInvalidDate(dates, parseDate)
    case Some(d) => Err(InvalidDate(d))
    case None =>
      var v := Distinct(dates);
      if v == [] then Err(NoDateChosen) else Ok(v)
  }

  /** The validation loop of `create_watcher`: empty entries skipped, the first entry that is
      not a date rejected, the others appended unless already there, and an empty result
      rejected. */
  method ValidateTargetDates(targetDates: seq<string>, parseDate: string -> Option<int>)
    returns (r: Result<seq<string>, string>)
    ensures r == TargetDatesOf(targetDates, parseDate)
  {
    var validatedDates: seq<string> := [];
    var i := 0;
    while i < |targetDates|
      invariant 0 <= i <= |targetDates|
      invariant FirstInvalidDate(targetDates[..i], parseDate).None?
      invariant validatedDates == Distinct(targetDates[..i])
    {
      var dateStr := targetDates[i];
      assert targetDates[..i + 1][..i] == targetDates[..i] && targetDates[..i + 1][i] == dateStr;
      if dateStr != "" {
        if parseDate(dateStr).None? {
          FirstInvalidKept(targetDates[..i + 1], targetDates[i + 1..], parseDate);
          assert targetDates[..i + 1] + targetDates[i + 1..] == targetDates;
          return Err(InvalidDate(dateStr));
        }
        if dateStr !in validatedDates {
          validatedDates := validatedDates + [dateStr];
        }
      }
      i := i + 1;
    }
    assert targetDates[..i] == targetDates;
    if validatedDates == [] {
      return Err(NoDateChosen);
    }
    r := Ok(validatedDates);
  }

  /** Entries after the first invalid one do not change which one is reported. */
  lemma {:induction false} FirstInvalidKept(xs: seq<string>, ys: seq<string>, parseDate: string -> Option<int>)
    requires FirstInvalidDate(xs, parseDate).Some?
    ensures FirstInvalidDate(xs + ys, parseDate) == FirstInvalidDate(xs, parseDate)
    decreases |ys|
  {
    if ys == [] {
      assert xs + ys == xs;
    } else {
      var ys' := ys[..|ys| - 1];
      FirstInvalidKept(xs, ys', parseDate);
      assert (xs + ys)[..|xs + ys| - 1] == xs + ys';
    }
  }

  /** The entry reported is the first non-empty one that is not a date; none is reported
      exactly when every non-empty entry is a date. */
  lemma {:induction false} FirstInvalidDateSpec(dates: seq<string>, parseDate: string -> Option<int>)
    ensures FirstInvalidDate(dates, parseDate).None? <==>
      forall k :: 0 <= k < |dates| && dates[k] != "" ==> parseDate(dates[k]).Some?
    ensures FirstInvalidDate(dates, parseDate).Some? ==>
      exists k :: 0 <= k < |dates| && dates[k] == FirstInvalidDate(dates, parseDate).value &&
        dates[k] != "" && parseDate(dates[k]).None? &&
        forall j :: 0 <= j < k ==> dates[j] == "" || parseDate(dates[j]).Some?
    decreases |dates|
  {
    if dates != [] {
      var init := dates[..|dates| - 1];
      FirstInvalidDateSpec(init, parseDate);
      assert forall k :: 0 <= k < |init| ==> dates[k] == init[k];
      if FirstInvalidDate(init, parseDate).Some? {
        var k :| 0 <= k < |init| && init[k] == FirstInvalidDate(init, parseDate).value &&
          init[k] != "" && parseDate(init[k]).None? &&
          forall j :: 0 <= j < k ==> init[j] == "" || parseDate(init[j]).Some?;
        assert dates[k] == init[k];
      }
    }
  }

  /** The stored dates hold each non-empty entry once and nothing else. */
  lemma {:induction false} DistinctSpec(dates: seq<string>)
    ensures forall d :: d in Distinct(dates) <==> d in dates && d != ""
    ensures forall i, j :: 0 <= i < j < |Distinct(dates)| ==> Distinct(dates)[i] != Distinct(dates)[j]
    decreases |dates|
  {
    if dates != [] {
      var init := dates[..|dates| - 1];
      DistinctSpec(init);
      assert dates == init + [dates[|dates| - 1]];
    }
  }

  /** The form is accepted exactly when every non-empty entry is a date and there is at least
      one; the stored list then holds each of them once, and nothing else.  An all-empty
      selection is rejected as such; otherwise the first entry that is not a date is named. */
  lemma TargetDatesSpec(dates: seq<string>, parseDate: string -> Option<int>)
    ensures var r := TargetDatesOf(dates, parseDate);
      (r.Ok? <==> (forall k :: 0 <= k < |dates| && dates[k] != "" ==> parseDate(dates[k]).Some?) &&
                  (exists k :: 0 <= k < |dates| && dates[k] != "")) &&
      (r.Ok? ==> (forall d :: d in r.value <==> d in dates && d != "") &&
                 (forall i, j :: 0 <= i < j < |r.value| ==> r.value[i] != r.value[j])) &&
      (r == Err(NoDateChosen) <==> forall k :: 0 <= k < |dates| ==> dates[k] == "")
  {
    FirstInvalidDateSpec(dates, parseDate);
    DistinctSpec(dates);
    var v := Distinct(dates);
    if exists k :: 0 <= k < |dates| && dates[k] != "" {
      var k :| 0 <= k < |dates| && dates[k] != "";
      assert dates[k] in v;
    }
    if v != [] {
      assert v[0] in v;
      var k :| 0 <= k < |dates| && dates[k] == v[0];
      assert dates[k] != "";
    }
    if FirstInvalidDate(dates, parseDate).Some? {
      var d := FirstInvalidDate(dates, parseDate).value;
      assert InvalidDate(d)[0] != NoDateChosen[0];
    }
  }

  // ----- notification channel -----

  const BadNotificationType := "Neplatný typ notifikácie"
  const TelegramCredentialsMissing := "Pre Telegram sú povinné Bot Token a Chat ID"
  const EmailMissing := "Pre Email je povinná emailová adresa"
  const EmailInvalid := "Neplatná emailová adresa"

  /** The channel a valid form sets up. */
  datatype Channel = Telegram(botToken: string, chatId: string) | Email(address: string)

  predicate IsLetter(c: char) { 'a' <= c <= 'z' || 'A' <= c <= 'Z' }

  /** `[a-zA-Z0-9._%+-]`. */
  predicate IsLocalChar(c: char) { IsLetter(c) || IsDigit(c) || c == '.' || c == '_' || c == '%' || c == '+' || c == '-' }

  /** `[a-zA-Z0-9.-]`. */
  predicate IsDomainChar(c: char) { IsLetter(c) || IsDigit(c) || c == '.' || c == '-' }

  /** `body` is `local@domain.tld` with the `@` at `at` and the last `.` at `dot`: a non-empty
      local part, a non-empty domain and a top-level part of two letters or more. */
  predicate EmailSplit(body: string, at: int, dot: int)
  {
    0 < at && at + 1 < dot && dot + 2 < |body| &&
    body[at] == '@' && body[dot] == '.' &&
    (forall k :: 0 <= k < at ==> IsLocalChar(body[k])) &&
    (forall k :: at < k < dot ==> IsDomainChar(body[k])) &&
    (forall k :: dot < k < |body| ==> IsLetter(body[k]))
  }

  /** `re.match(r'^[a-zA-Z0-9._%+-]+@[a-zA-Z0-9.-]+\.[a-zA-Z]{2,}$', s)`. */
  predicate IsEmailAddress(s: string)
  {
    MatchesEmail(BeforeFinalNewline(s))
  }

  /** The pattern on the text before the end anchor, decided without backtracking: `@` is in
      neither name class, so it ends the local part, and `.` is not a letter, so the
      top-level part is the whole final run of letters. */
  predicate MatchesEmail(body: string)
  {
    var at := Span(body, 0, IsLocalChar);
    var n := TrailingRun(body, IsLetter);
    var dot := |body| - n - 1;
    n >= 2 && 0 < at && at + 1 < dot && body[at] == '@' && body[dot] == '.' &&
    forall k :: at < k < dot ==> IsDomainChar(body[k])
  }

  /** The matcher accepts exactly the texts that split as the pattern says. */
  lemma IsEmailAddressSpec(s: string)
    ensures IsEmailAddress(s) <==> exists at, dot :: EmailSplit(BeforeFinalNewline(s), at, dot)
  {
    var body := BeforeFinalNewline(s);
    if MatchesEmail(body) {
      MatchesEmailSound(body);
    }
    if exists a, d :: EmailSplit(body, a, d) {
      var a, d :| EmailSplit(body, a, d);
      MatchesEmailComplete(body, a, d);
    }
  }

  lemma MatchesEmailSound(body: string)
    requires MatchesEmail(body)
    ensures EmailSplit(body, Span(body, 0, IsLocalChar), |body| - TrailingRun(body, IsLetter) - 1)
  {
  }

  lemma MatchesEmailComplete(body: string, at: int, dot: int)
    requires EmailSplit(body, at, dot)
    ensures MatchesEmail(body)
  {
    SpanStopsAt(body, 0, at, IsLocalChar);
    TrailingRunStopsAt(body, IsLetter, |body| - dot - 1);
  }

  /** The type and credential checks of `create_watcher`, in the source's order. */
  function CheckNotificationSettings(notificationType: string, botToken: Option<string>, chatId: Option<string>,
                                     email: Option<string>): Result<Channel, string>
  {
    if notificationType != "telegram" && notificationType != "email" then Err(BadNotificationType)
    else if notificationType == "telegram" then
      if !Notify.Truthy(botToken) || !Notify.Truthy(chatId) then Err(TelegramCredentialsMissing)
      else Ok(Telegram(botToken.value, chatId.value))
    else if !Notify.Truthy(email) then Err(EmailMissing)
    else if !IsEmailAddress(email.value) then Err(EmailInvalid)
    else Ok(Email(email.value))
  }

  /** Telegram is set up exactly with a non-empty token and chat id, e-mail exactly with a
      well-formed address, and any other type is refused. */
  lemma NotificationSettingsSpec(notificationType: string, botToken: Option<string>, chatId: Option<string>,
                                 email: Option<string>)
    ensures var r := CheckNotificationSettings(notificationType, botToken, chatId, email);
      (r.Ok? && r.value.Telegram? <==>
        notificationType == "telegram" && botToken.Some? && botToken.value != "" && chatId.Some? && chatId.value != "") &&
      (r.Ok? && r.value.Email? <==>
        notificationType == "email" && email.Some? && email.value != "" &&
        exists at, dot :: EmailSplit(BeforeFinalNewline(email.value), at, dot)) &&
      (r.Ok? && r.value.Telegram? ==> r.value == Telegram(botToken.value, chatId.value)) &&
      (r.Ok? && r.value.Email? ==> r.value == Email(email.value)) &&
      (r == Err(BadNotificationType) <==> notificationType != "telegram" && notificationType != "email")
  {
    if email.Some? {
      IsEmailAddressSpec(email.value);
    }
  }

  // ----- the free-text date field -----

  function BadDateFormat(d: string): string
  {
    "Invalid date format: " + d + ". Use YYYY-MM-DD or week range (e.g., 0-3)"
  }

  /** How `parse_date_input` fails: its own `ValueError` for a line that is not a date, the
      `ValueError` of `int` on a week number longer than Python's digit limit, or the
      `OverflowError` of a day past the last one `date` holds. */
  datatype DateInputError = InvalidFormat(message: string) | DigitLimit | DateOverflow

  /** Python's default limit on the number of digits `int` converts from text. */
  const MaxStrDigits := 4300

  /** 9999-12-31, the last day of Python's `date`, as a day ordinal. */
  const MaxDay := 2932896

  /** One of the two numbers of a week range has more digits than `int` converts. */
  predicate TooManyDigits(s: string)
  {
    var i := Span(s, 0, IsDigit);
    i > MaxStrDigits || |s| - i - 1 > MaxStrDigits
  }

  /** `re.match(r'^\d+-\d+$', s)` on a stripped text, with the two numbers `int` reads. */
  function WeekRange(s: string): Option<(nat, nat)>
  {
    var i := Span(s, 0, IsDigit);
    if 0 < i && i + 1 < |s| && s[i] == '-' && AllDigits(s[i + 1..]) then
      Some((DigitsValue(s[..i]), DigitsValue(s[i + 1..])))
    else None
  }

  /** Every day of the weeks `startWeek` to `endWeek` after the week starting `weekStart`,
      formatted, in calendar order. */
  function WeekRangeDates(weekStart: int, startWeek: nat, endWeek: nat, formatDate: int -> string): seq<string>
  {
    if endWeek < startWeek then []
    else seq(7 * (endWeek - startWeek + 1), k => formatDate(weekStart + 7 * startWeek + k))
  }

  /** The `k`-th day listed for a week range, counting from the Monday of its first week. */
  function RangeDay(weekStart: int, startWeek: nat, k: int): int
  {
    weekStart + 7 * startWeek + k
  }

  /** The week-range branch: the listed days, or the overflow raised at the first day past
      9999-12-31 (the last day of the range is the latest). */
  function WeekRangeOutcome(weekStart: int, startWeek: nat, endWeek: nat, formatDate: int -> string)
    : Result<seq<string>, DateInputError>
  {
    if startWeek <= endWeek && weekStart + 7 * endWeek + 6 > MaxDay then Err(DateOverflow)
    else Ok(WeekRangeDates(weekStart, startWeek, endWeek, formatDate))
  }

  /** `[d.strip() for d in lines if d.strip()]`. */
  function NonBlankStripped(lines: seq<string>): seq<string>
  {
    if lines == [] then []
    else
      var d := Strip(lines[|lines| - 1]);
      NonBlankStripped(lines[..|lines| - 1]) + (if d != "" then [d] else [])
  }

  /** What `parse_date_input` returns, or the error it raises. */
  function DateInputOf(dateInput: string, today: int, parseDate: string -> Option<int>,
                       formatDate: int -> string): Result<seq<string>, DateInputError>
  {
    var s := Strip(dateInput);
    match WeekRange(s)
    case Some(range) =>
      if TooManyDigits(s) then Err(DigitLimit)
      else WeekRangeOutcome(MondayOf(today), range.0, range.1, formatDate)
    case None =>
      CheckedDates(NonBlankStripped(Split(s, '\n')), parseDate)
  }

  /** The exact dates, kept when each of them is a date, or the message naming the first that
      is not. */
  function CheckedDates(dates: seq<string>, parseDate: string -> Option<int>): Result<seq<string>, DateInputError>
  {
    match FirstInvalidDate(dates, parseDate)
    case Some(d) => Err(InvalidFormat(BadDateFormat(d)))
    case None => Ok(dates)
  }

  /** `parse_date_input`, with its loops. */
  method ParseDateInput(dateInput: string, today: int, parseDate: string -> Option<int>, formatDate: int -> string)
    returns (r: Result<seq<string>, DateInputError>)
    ensures r == DateInputOf(dateInput, today, parseDate, formatDate)
  {
    var input := Strip(dateInput);
    var range := WeekRange(input);
    if range.Some? {
      if TooManyDigits(input) {
        return Err(DigitLimit);
      }
      var weekStart := MondayOf(today);
      assert DateInputOf(dateInput, today, parseDate, formatDate)
          == WeekRangeOutcome(weekStart, range.value.0, range.value.1, formatDate);
      r := ListWeekDays(weekStart, range.value.0, range.value.1, formatDate);
      return;
    }
    var dates := StrippedLines(Split(input, '\n'));
    assert DateInputOf(dateInput, today, parseDate, formatDate) == CheckedDates(dates, parseDate);
    var bad := FindInvalidDate(dates, parseDate);
    if bad.Some? {
      return Err(InvalidFormat(BadDateFormat(bad.value)));
    }
    r := Ok(dates);
  }

  /** The comprehension keeping the non-blank lines, stripped. */
  method StrippedLines(lines: seq<string>) returns (dates: seq<string>)
    ensures dates == NonBlankStripped(lines)
  {
    dates := [];
    var i := 0;
    while i < |lines|
      invariant 0 <= i <= |lines|
      invariant dates == NonBlankStripped(lines[..i])
    {
      var d := Strip(lines[i]);
      assert lines[..i + 1][..i] == lines[..i] && lines[..i + 1][i] == lines[i];
      if d != "" {
        dates := dates + [d];
      }
      i := i + 1;
    }
    assert lines[..i] == lines;
  }

  /** The loop trying `strptime` on each entry in turn, stopping at the first it refuses. */
  method FindInvalidDate(dates: seq<string>, parseDate: string -> Option<int>) returns (bad: Option<string>)
    ensures bad == FirstInvalidDate(dates, parseDate)
  {
    var j := 0;
    while j < |dates|
      invariant 0 <= j <= |dates|
      invariant FirstInvalidDate(dates[..j], parseDate).None?
    {
      assert dates[..j + 1][..j] == dates[..j] && dates[..j + 1][j] == dates[j];
      if dates[j] != "" && parseDate(dates[j]).None? {
        FirstInvalidKept(dates[..j + 1], dates[j + 1..], parseDate);
        assert dates[..j + 1] + dates[j + 1..] == dates;
        return Some(dates[j]);
      }
      j := j + 1;
    }
    assert dates[..j] == dates;
    return None;
  }

  /** The week-range loops of `parse_date_input`: for each week of the range, its seven days
      from Monday on, stopping with `OverflowError` at the first day past 9999-12-31. */
  method ListWeekDays(weekStart: int, startWeek: nat, endWeek: nat, formatDate: int -> string)
    returns (r: Result<seq<string>, DateInputError>)
    ensures r == WeekRangeOutcome(weekStart, startWeek, endWeek, formatDate)
  {
    var dates: seq<string> := [];
    var week := startWeek;
    while week <= endWeek
      invariant startWeek <= week && (week <= endWeek + 1 || week == startWeek)
      invariant |dates| == 7 * (week - startWeek)
      invariant forall k :: 0 <= k < |dates| ==> dates[k] == formatDate(weekStart + 7 * startWeek + k)
      invariant |dates| == 0 || weekStart + 7 * startWeek + |dates| - 1 <= MaxDay
      decreases endWeek + 1 - week
    {
      var day := 0;
      while day < 7
        invariant 0 <= day <= 7
        invariant |dates| == 7 * (week - startWeek) + day
        invariant forall k :: 0 <= k < |dates| ==> dates[k] == formatDate(weekStart + 7 * startWeek + k)
        invariant |dates| == 0 || weekStart + 7 * startWeek + |dates| - 1 <= MaxDay
      {
        var date := weekStart + 7 * week + day;
        if date > MaxDay {
          return Err(DateOverflow);
        }
        dates := dates + [formatDate(date)];
        day := day + 1;
      }
      week := week + 1;
    }
    if startWeek <= endWeek {
      var expected := WeekRangeDates(weekStart, startWeek, endWeek, formatDate);
      assert |expected| == |dates|;
      assert forall k :: 0 <= k < |dates| ==> dates[k] == expected[k];
      assert dates == expected;
    }
    r := Ok(dates);
  }

  /** A week range is two runs of digits around one dash. */
  lemma WeekRangeShape(s: string)
    ensures WeekRange(s).Some? <==>
      exists i :: 0 < i < |s| - 1 && s[i] == '-' && AllDigits(s[..i]) && AllDigits(s[i + 1..])
  {
    if exists i :: 0 < i < |s| - 1 && s[i] == '-' && AllDigits(s[..i]) && AllDigits(s[i + 1..]) {
      var i :| 0 < i < |s| - 1 && s[i] == '-' && AllDigits(s[..i]) && AllDigits(s[i + 1..]);
      SpanStopsAt(s, 0, i, IsDigit);
    }
  }

  /** For a text split at its dash into two digit runs, the digit limit is passed exactly when
      one of the two runs is longer than 4300 digits. */
  lemma TooManyDigitsSpec(s: string, i: nat)
    requires 0 < i < |s| - 1 && s[i] == '-' && AllDigits(s[..i]) && AllDigits(s[i + 1..])
    ensures TooManyDigits(s) <==> |s[..i]| > MaxStrDigits || |s[i + 1..]| > MaxStrDigits
  {
    SpanStopsAt(s, 0, i, IsDigit);
  }

  /** Reading back two rendered week numbers gives them. */
  lemma WeekRangeRoundTrip(a: nat, b: nat)
    ensures WeekRange(NatToString(a) + "-" + NatToString(b)) == Some((a, b))
  {
    var x := NatToString(a);
    var y := NatToString(b);
    var t := x + "-" + y;
    assert forall k :: 0 <= k < |x| ==> t[k] == x[k];
    assert t[|x|] == '-';
    SpanStopsAt(t, 0, |x|, IsDigit);
    assert t[..|x|] == x && t[|x| + 1..] == y;
    DigitsValueOfNatToString(a);
    DigitsValueOfNatToString(b);
  }

  /** A week range lists every day from the Monday that starts week `startWeek` to the Sunday
      that ends week `endWeek`, one after the other, where week 0 is the calendar week of today. */
  lemma WeekRangeDatesSpec(today: int, startWeek: nat, endWeek: nat, formatDate: int -> string)
    requires startWeek <= endWeek
    ensures var first := MondayOf(today) + 7 * startWeek;
      var r := WeekRangeDates(MondayOf(today), startWeek, endWeek, formatDate);
      MondayOf(today) <= today < MondayOf(today) + 7 &&
      |r| == 7 * (endWeek - startWeek + 1) &&
      Weekday(first) == 0 && Weekday(first + |r| - 1) == 6 &&
      forall d :: first <= d < first + |r| ==> r[d - first] == formatDate(d)
  {
    var first := MondayOf(today) + 7 * startWeek;
    var n := 7 * (endWeek - startWeek + 1);
    assert Weekday(first) == (MondayOf(today) + 3) % 7;
    assert Weekday(first + n - 1) == (MondayOf(today) + 3 + 6) % 7;
  }

  /** A week range succeeds exactly when every day it lists is on or before 9999-12-31, and
      then lists them; otherwise one of its days is past that day. */
  lemma WeekRangeOutcomeSpec(weekStart: int, startWeek: nat, endWeek: nat, formatDate: int -> string)
    ensures var r := WeekRangeOutcome(weekStart, startWeek, endWeek, formatDate);
      var n := |WeekRangeDates(weekStart, startWeek, endWeek, formatDate)|;
      (r.Ok? <==> forall k :: 0 <= k < n ==> RangeDay(weekStart, startWeek, k) <= MaxDay) &&
      (r.Ok? ==> r.value == WeekRangeDates(weekStart, startWeek, endWeek, formatDate)) &&
      (r.Err? ==> r.error == DateOverflow && exists k :: 0 <= k < n && RangeDay(weekStart, startWeek, k) > MaxDay)
  {
    var n := |WeekRangeDates(weekStart, startWeek, endWeek, formatDate)|;
    if startWeek <= endWeek {
      assert n == 7 * (endWeek - startWeek + 1);
      assert RangeDay(weekStart, startWeek, n - 1) == weekStart + 7 * endWeek + 6;
    }
  }

  /** In week-range form the field fails on a week number longer than the digit limit, and
      otherwise gives every day of the range exactly when none is past 9999-12-31; the only
      errors are those two. */
  lemma WeekInputSpec(dateInput: string, today: int, parseDate: string -> Option<int>, formatDate: int -> string)
    requires WeekRange(Strip(dateInput)).Some?
    ensures var s := Strip(dateInput);
      var range := WeekRange(s).value;
      var days := WeekRangeDates(MondayOf(today), range.0, range.1, formatDate);
      var r := DateInputOf(dateInput, today, parseDate, formatDate);
      (r == Err(DigitLimit) <==> TooManyDigits(s)) &&
      (r.Err? ==> r.error == DigitLimit || r.error == DateOverflow) &&
      (!TooManyDigits(s) ==>
        (r.Ok? <==> forall k :: 0 <= k < |days| ==> RangeDay(MondayOf(today), range.0, k) <= MaxDay)) &&
      (r.Ok? ==> r.value == days)
  {
    var s := Strip(dateInput);
    var range := WeekRange(s).value;
    WeekRangeOutcomeSpec(MondayOf(today), range.0, range.1, formatDate);
  }

  /** The non-blank lines, stripped: no entry is empty, every entry is a line stripped, and
      every non-blank line is there. */
  lemma {:induction false} NonBlankStrippedSpec(lines: seq<string>)
    ensures forall k :: 0 <= k < |NonBlankStripped(lines)| ==> NonBlankStripped(lines)[k] != ""
    ensures forall d :: d in NonBlankStripped(lines) ==> exists k :: 0 <= k < |lines| && Strip(lines[k]) == d
    ensures forall k :: 0 <= k < |lines| && Strip(lines[k]) != "" ==> Strip(lines[k]) in NonBlankStripped(lines)
    decreases |lines|
  {
    if lines != [] {
      var init := lines[..|lines| - 1];
      NonBlankStrippedSpec(init);
      assert forall k :: 0 <= k < |init| ==> lines[k] == init[k];
      forall d | d in NonBlankStripped(lines)
        ensures exists k :: 0 <= k < |lines| && Strip(lines[k]) == d
      {
        if d in NonBlankStripped(init) {
          var k :| 0 <= k < |init| && Strip(init[k]) == d;
          assert Strip(lines[k]) == d;
        } else {
          assert Strip(lines[|lines| - 1]) == d;
        }
      }
    }
  }

  /** A list of non-empty entries is kept whole when each is a date; otherwise the error names
      the first that is not. */
  lemma CheckedDatesSpec(dates: seq<string>, parseDate: string -> Option<int>)
    requires forall k :: 0 <= k < |dates| ==> dates[k] != ""
    ensures var r := CheckedDates(dates, parseDate);
      (r.Ok? <==> forall k :: 0 <= k < |dates| ==> parseDate(dates[k]).Some?) &&
      (r.Ok? ==> r.value == dates) &&
      (r.Err? ==> exists k :: 0 <= k < |dates| && parseDate(dates[k]).None? &&
                    r.error == InvalidFormat(BadDateFormat(dates[k])) &&
                    forall j :: 0 <= j < k ==> parseDate(dates[j]).Some?)
  {
    FirstInvalidDateSpec(dates, parseDate);
  }

  /** Outside week-range form, the field is accepted exactly when every non-blank line is a
      date once stripped, and then gives those lines stripped, in order; otherwise the error
      names the first of them that is not a date. */
  lemma DateLinesSpec(dateInput: string, today: int, parseDate: string -> Option<int>, formatDate: int -> string)
    requires WeekRange(Strip(dateInput)).None?
    ensures var dates := NonBlankStripped(Split(Strip(dateInput), '\n'));
      var r := DateInputOf(dateInput, today, parseDate, formatDate);
      (r.Ok? <==> forall k :: 0 <= k < |dates| ==> parseDate(dates[k]).Some?) &&
      (r.Ok? ==> r.value == dates) &&
      (r.Err? ==> exists k :: 0 <= k < |dates| && parseDate(dates[k]).None? &&
                    r.error == InvalidFormat(BadDateFormat(dates[k])) &&
                    forall j :: 0 <= j < k ==> parseDate(dates[j]).Some?)
  {
    var s := Strip(dateInput);
    var dates := NonBlankStripped(Split(s, '\n'));
    assert WeekRange(s).None?;
    assert DateInputOf(dateInput, today, parseDate, formatDate) == CheckedDates(dates, parseDate);
    NonBlankStrippedSpec(Split(s, '\n'));
    CheckedDatesSpec(dates, parseDate);
  }
}
