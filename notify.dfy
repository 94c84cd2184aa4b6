/**
 * Notifications about new slots: the Telegram message, the e-mail subject and plain-text body,
 * and the decision whether a message is sent at all.  The transports (the Telegram HTTP API and
 * Mailjet) are a boolean parameter saying whether the request succeeded; the HTML body of the
 * e-mail is not modelled.
 */
module Notify {
  import opened Wrappers
  import opened Strings
  import opened SlotParser

  // ----- sorted(slots, key=lambda x: x['datetime']) -----

  /** Inserts `x` before the first slot whose key is not smaller, so that earlier slots with
      an equal key stay first. */
  function InsertByDatetime(x: Slot, ys: seq<Slot>): (r: seq<Slot>)
    requires SortedByDatetime(ys)
    ensures SortedByDatetime(r)
    ensures multiset(r) == multiset(ys) + multiset{x}
    ensures |r| > 0 && (r[0] == x || (|ys| > 0 && r[0] == ys[0]))
  {
    if ys == [] then [x]
    else if LexLe(x.datetime, ys[0].datetime) then [x] + ys
    else
      LexLeTotal(x.datetime, ys[0].datetime);
      var tail := InsertByDatetime(x, ys[1..]);
      assert ys == [ys[0]] + ys[1..];
      [ys[0]] + tail
  }

  /** Neighbouring slots are in `datetime` order. */
  predicate SortedByDatetime(xs: seq<Slot>)
  {
    forall i :: 0 <= i < |xs| - 1 ==> LexLe(xs[i].datetime, xs[i + 1].datetime)
  }

  /** Python's stable `sorted` by the `datetime` text: the same slots, in ascending order. */
  function SortByDatetime(xs: seq<Slot>): (r: seq<Slot>)
    ensures SortedByDatetime(r)
    ensures multiset(r) == multiset(xs)
    ensures |r| == |xs|
  {
    if xs == [] then []
    else
      assert xs == [xs[0]] + xs[1..];
      InsertByDatetime(xs[0], SortByDatetime(xs[1..]))
  }

  // ----- the messages -----

  /** One line of the slot list. */
  function BulletLine(s: Slot): string
  {
    "• " + s.date + " " + s.time + "\n"
  }

  /** The slot list: one line per slot, in order. */
  function Bullets(xs: seq<Slot>): string
  {
    if xs == [] then "" else Bullets(xs[..|xs| - 1]) + BulletLine(xs[|xs| - 1])
  }

  /** The Markdown link to the doctor's page. */
  function DoctorLink(doctorName: string, doctorUrl: string): string
  {
    "[" + doctorName + "](" + doctorUrl + ")"
  }

  /** The heading of a Telegram message listing several slots. */
  function TelegramHeading(doctorName: string, doctorUrl: string, count: nat): string
  {
    DoctorLink(doctorName, doctorUrl) + "\n\nNájdených " + NatToString(count) + " termínov:\n\n"
  }

  /** The text of the Telegram message for a non-empty list of slots: a single slot on one
      line, several as a heading and the slot list in `datetime` order. */
  function TelegramText(doctorName: string, doctorUrl: string, slots: seq<Slot>): string
    requires slots != []
  {
    if |slots| == 1 then
      DoctorLink(doctorName, doctorUrl) + "\n\nTermín: " + slots[0].date + " " + slots[0].time + " - OPEN"
    else
      TelegramHeading(doctorName, doctorUrl, |slots|) + Bullets(SortByDatetime(slots))
  }

  /** The count the e-mail subject begins with, followed by the noun in the right number. */
  function EmailSubject(count: nat, doctorName: string): string
  {
    NatToString(count) + " " + (if count == 1 then "nový termín" else "nových termínov") + " u " + doctorName
  }

  /** The heading of the plain-text e-mail. */
  function EmailHeading(doctorName: string, count: nat): string
  {
    doctorName + "\n\n" +
    (if count == 1 then "Nájdený 1 voľný termín:" else "Nájdených " + NatToString(count) + " voľných termínov:") +
    "\n\n"
  }

  /** The closing line of the plain-text e-mail. */
  function EmailFooter(doctorUrl: string): string
  {
    "\n\nObjednať sa: " + doctorUrl + "\n"
  }

  /** `build_email_text`: heading, the slot list in `datetime` order, and the booking link. */
  function EmailText(doctorName: string, doctorUrl: string, slots: seq<Slot>): string
  {
    EmailHeading(doctorName, |slots|) + Bullets(SortByDatetime(slots)) + EmailFooter(doctorUrl)
  }

  /** Appends the slot list to `text`, one line at a time, as the source's `+=` loops do. */
  method AppendBullets(text: string, xs: seq<Slot>) returns (r: string)
    ensures r == text + Bullets(xs)
  {
    r := text;
    var i := 0;
    while i < |xs|
      invariant 0 <= i <= |xs|
      invariant r == text + Bullets(xs[..i])
    {
      assert xs[..i + 1][..i] == xs[..i];
      r := r + BulletLine(xs[i]);
      i := i + 1;
    }
    assert xs[..i] == xs;
  }

  /** `build_email_text`, as the source builds it. */
  method BuildEmailText(doctorName: string, doctorUrl: string, slots: seq<Slot>) returns (text: string)
    ensures text == EmailText(doctorName, doctorUrl, slots)
  {
    var sortedSlots := SortByDatetime(slots);
    text := doctorName + "\n\n";
    text := text + (if |slots| == 1 then "Nájdený 1 voľný termín:" else "Nájdených " + NatToString(|slots|) + " voľných termínov:") + "\n\n";
    assert text == EmailHeading(doctorName, |slots|);
    text := AppendBullets(text, sortedSlots);
    ghost var body := text;
    text := text + "\n\nObjednať sa: " + doctorUrl + "\n";
    assert text == body + EmailFooter(doctorUrl);
  }

  // ----- sending -----

  /** An optional configuration value as Python's truth test sees it. */
  predicate Truthy(v: Option<string>)
  {
    v.Some? && v.value != ""
  }

  /** Python's `str(v)` inside an f-string, for a text that may be `None`. */
  function Show(v: Option<string>): string
  {
    match v
    case Some(s) => s
    case None => "None"
  }

  /** The Mailjet settings read from the environment. */
  datatype MailjetConfig = MailjetConfig(
    apiKey: Option<string>,
    secretKey: Option<string>,
    senderEmail: Option<string>,
    senderName: string)

  /** The sender name falls back to a fixed text only when the variable is unset. */
  function MailjetConfigFrom(apiKey: Option<string>, secretKey: Option<string>, senderEmail: Option<string>,
                             senderName: Option<string>): (cfg: MailjetConfig)
    ensures senderName.None? ==> cfg.senderName == "Doctor Appointment Watcher"
    ensures senderName.Some? ==> cfg.senderName == senderName.value
    ensures cfg.apiKey == apiKey && cfg.secretKey == secretKey && cfg.senderEmail == senderEmail
  {
    MailjetConfig(apiKey, secretKey, senderEmail,
      match senderName case Some(n) => n case None => "Doctor Appointment Watcher")
  }

  /** `validate_mailjet_config`: key, secret and sender address are all set and non-empty. */
  predicate ValidateMailjetConfig(cfg: MailjetConfig): (ok: bool)
    ensures ok <==> forall v :: v in [cfg.apiKey, cfg.secretKey, cfg.senderEmail] ==> v.Some? && |v.value| > 0
  {
    Truthy(cfg.apiKey) && Truthy(cfg.secretKey) && Truthy(cfg.senderEmail)
  }

  /** A request handed to a transport. */
  datatype Notification =
    | TelegramMessage(url: string, chatId: Option<string>, text: string, parseMode: string)
    | EmailMessage(fromEmail: Option<string>, fromName: string, to: Option<string>, subject: string, textPart: string)

  /** Whether the notification counts as sent, and the request that was attempted, if any. */
  datatype SendResult = SendResult(success: bool, attempted: Option<Notification>)

  /** The Bot API endpoint for a token. */
  function TelegramUrl(botToken: Option<string>): string
  {
    "https://api.telegram.org/bot" + Show(botToken) + "/sendMessage"
  }

  /** `send_telegram_notification`: nothing to send is a success; otherwise one Markdown
      message, and success is the transport's. */
  function TelegramOutcome(botToken: Option<string>, chatId: Option<string>, doctorName: string,
                           doctorUrl: string, slots: seq<Slot>, transportOk: bool): SendResult
  {
    if slots == [] then SendResult(true, None)
    else
      SendResult(transportOk,
        Some(TelegramMessage(TelegramUrl(botToken), chatId, TelegramText(doctorName, doctorUrl, slots), "Markdown")))
  }

  /** `send_email_notification`: nothing to send is a success; a missing Mailjet setting is a
      failure without a request; otherwise one message, and success is the transport's. */
  function EmailOutcome(cfg: MailjetConfig, email: Option<string>, doctorName: string, doctorUrl: string,
                        slots: seq<Slot>, transportOk: bool): SendResult
  {
    if slots == [] then SendResult(true, None)
    else if !ValidateMailjetConfig(cfg) then SendResult(false, None)
    else
      SendResult(transportOk,
        Some(EmailMessage(cfg.senderEmail, cfg.senderName, email,
          EmailSubject(|slots|, doctorName), EmailText(doctorName, doctorUrl, slots))))
  }

  /** `send_telegram_notification`, building the message as the source does. */
  method SendTelegramNotification(botToken: Option<string>, chatId: Option<string>, doctorName: string,
                                  doctorUrl: string, slots: seq<Slot>, transportOk: bool)
    returns (r: SendResult)
    ensures r == TelegramOutcome(botToken, chatId, doctorName, doctorUrl, slots, transportOk)
  {
    if slots == [] {
      return SendResult(true, None);
    }
    var doctorLink := DoctorLink(doctorName, doctorUrl);
    var message: string;
    if |slots| == 1 {
      message := doctorLink + "\n\nTermín: " + slots[0].date + " " + slots[0].time + " - OPEN";
    } else {
      message := doctorLink + "\n\nNájdených " + NatToString(|slots|) + " termínov:\n\n";
      message := AppendBullets(message, SortByDatetime(slots));
    }
    var url := "https://api.telegram.org/bot" + Show(botToken) + "/sendMessage";
    r := SendResult(transportOk, Some(TelegramMessage(url, chatId, message, "Markdown")));
  }

  /** `send_email_notification`, building the message as the source does. */
  method SendEmailNotification(cfg: MailjetConfig, email: Option<string>, doctorName: string, doctorUrl: string,
                               slots: seq<Slot>, transportOk: bool)
    returns (r: SendResult)
    ensures r == EmailOutcome(cfg, email, doctorName, doctorUrl, slots, transportOk)
  {
    if slots == [] {
      return SendResult(true, None);
    }
    if !Truthy(cfg.apiKey) || !Truthy(cfg.secretKey) || !Truthy(cfg.senderEmail) {
      return SendResult(false, None);
    }
    var subject := NatToString(|slots|) + " " + (if |slots| == 1 then "nový termín" else "nových termínov") + " u " + doctorName;
    var textContent := BuildEmailText(doctorName, doctorUrl, slots);
    r := SendResult(transportOk, Some(EmailMessage(cfg.senderEmail, cfg.senderName, email, subject, textContent)));
  }

  // ----- properties -----

  /** The slot list holds the line of every slot it was built from. */
  lemma {:induction false} BulletsListEverySlot(xs: seq<Slot>, i: nat)
    requires i < |xs|
    ensures Contains(Bullets(xs), BulletLine(xs[i]))
  {
    var init := xs[..|xs| - 1];
    var last := BulletLine(xs[|xs| - 1]);
    if i == |xs| - 1 {
      ContainsSelf(last);
      ContainsConcatRight(Bullets(init), last, last);
    } else {
      BulletsListEverySlot(init, i);
      assert init[i] == xs[i];
      ContainsConcatLeft(Bullets(init), last, BulletLine(xs[i]));
    }
  }

  /** Every slot of the input has its line in the sorted slot list. */
  lemma SortedBulletsListEverySlot(slots: seq<Slot>, s: Slot)
    requires s in slots
    ensures Contains(Bullets(SortByDatetime(slots)), BulletLine(s))
  {
    var sorted := SortByDatetime(slots);
    assert s in multiset(slots);
    assert s in multiset(sorted);
    var i :| 0 <= i < |sorted| && sorted[i] == s;
    BulletsListEverySlot(sorted, i);
  }

  /** The plain-text e-mail opens with the doctor's name and closes with the booking link. */
  lemma EmailTextEnds(doctorName: string, doctorUrl: string, slots: seq<Slot>)
    ensures var text := EmailText(doctorName, doctorUrl, slots);
      IsPrefix(doctorName + "\n\n", text) && IsSuffix(EmailFooter(doctorUrl), text)
  {
    var lead := doctorName + "\n\n";
    var count := if |slots| == 1 then "Nájdený 1 voľný termín:" else "Nájdených " + NatToString(|slots|) + " voľných termínov:";
    var head := EmailHeading(doctorName, |slots|);
    var body := Bullets(SortByDatetime(slots));
    assert head == lead + (count + "\n\n");
    PrefixOfConcat(lead, lead, count + "\n\n");
    PrefixOfConcat(lead, head, body);
    PrefixOfConcat(lead, head + body, EmailFooter(doctorUrl));
    SuffixOfConcat(head + body, EmailFooter(doctorUrl));
  }

  /** The plain-text e-mail opens with the doctor's name, lists every slot on a line of its
      own, and closes with the booking link. */
  lemma EmailTextSpec(doctorName: string, doctorUrl: string, slots: seq<Slot>)
    ensures var text := EmailText(doctorName, doctorUrl, slots);
      IsPrefix(doctorName + "\n\n", text) &&
      IsSuffix("\n\nObjednať sa: " + doctorUrl + "\n", text) &&
      forall s :: s in slots ==> Contains(text, BulletLine(s))
  {
    EmailTextEnds(doctorName, doctorUrl, slots);
    var head := EmailHeading(doctorName, |slots|);
    var body := Bullets(SortByDatetime(slots));
    var foot := EmailFooter(doctorUrl);
    var text := EmailText(doctorName, doctorUrl, slots);
    forall s | s in slots
      ensures Contains(text, BulletLine(s))
    {
      SortedBulletsListEverySlot(slots, s);
      ContainsConcatRight(head, body, BulletLine(s));
      ContainsConcatLeft(head + body, foot, BulletLine(s));
    }
  }

  /** The line of a slot names its date and time. */
  lemma BulletLineNamesSlot(s: Slot)
    ensures Contains(BulletLine(s), s.date + " " + s.time)
  {
    var dt := s.date + " " + s.time;
    assert BulletLine(s) == "• " + dt + "\n";
    ContainsSelf(dt);
    ContainsConcatRight("• ", dt, dt);
    ContainsConcatLeft("• " + dt, "\n", dt);
  }

  /** The Telegram message starts with the doctor link and names the date and time of every
      slot: on the single line for one slot, on a line of the list for several. */
  lemma TelegramTextSpec(doctorName: string, doctorUrl: string, slots: seq<Slot>)
    requires slots != []
    ensures var text := TelegramText(doctorName, doctorUrl, slots);
      IsPrefix(DoctorLink(doctorName, doctorUrl), text) &&
      forall s :: s in slots ==> Contains(text, s.date + " " + s.time)
  {
    var link := DoctorLink(doctorName, doctorUrl);
    var text := TelegramText(doctorName, doctorUrl, slots);
    if |slots| == 1 {
      var dt := slots[0].date + " " + slots[0].time;
      var pre := link + "\n\nTermín: ";
      assert text == pre + dt + " - OPEN";
      ContainsSelf(dt);
      ContainsConcatRight(pre, dt, dt);
      ContainsConcatLeft(pre + dt, " - OPEN", dt);
      assert text[..|link|] == link;
    } else {
      var head := TelegramHeading(doctorName, doctorUrl, |slots|);
      var body := Bullets(SortByDatetime(slots));
      forall s | s in slots
        ensures Contains(text, s.date + " " + s.time)
      {
        SortedBulletsListEverySlot(slots, s);
        BulletLineNamesSlot(s);
        ContainsWithin(body, BulletLine(s), s.date + " " + s.time);
        ContainsConcatRight(head, body, s.date + " " + s.time);
      }
      assert text[..|link|] == link;
    }
  }

  /** The subject gives back the number of slots: it starts with the count in decimal, and the
      digits before the first space read as that count. */
  lemma EmailSubjectCount(count: nat, doctorName: string)
    ensures var subject := EmailSubject(count, doctorName);
      var n := Span(subject, 0, IsDigit);
      n < |subject| && subject[n] == ' ' && DigitsValue(subject[..n]) == count
  {
    var digits := NatToString(count);
    var rest := " " + (if count == 1 then "nový termín" else "nových termínov") + " u " + doctorName;
    assert EmailSubject(count, doctorName) == digits + rest;
    SpanOfPrefix(digits, rest, IsDigit);
    DigitsValueOfNatToString(count);
  }

  /** Nothing to send: both senders report success and attempt nothing. */
  lemma EmptyListSendsNothing(botToken: Option<string>, chatId: Option<string>, cfg: MailjetConfig,
                              email: Option<string>, doctorName: string, doctorUrl: string, transportOk: bool)
    ensures TelegramOutcome(botToken, chatId, doctorName, doctorUrl, [], transportOk) == SendResult(true, None)
    ensures EmailOutcome(cfg, email, doctorName, doctorUrl, [], transportOk) == SendResult(true, None)
  {
  }

  /** With slots to report, the e-mail sender attempts a message iff Mailjet is configured,
      and succeeds iff it attempted one and the transport succeeded. */
  lemma EmailSendSpec(cfg: MailjetConfig, email: Option<string>, doctorName: string, doctorUrl: string,
                      slots: seq<Slot>, transportOk: bool)
    requires slots != []
    ensures var r := EmailOutcome(cfg, email, doctorName, doctorUrl, slots, transportOk);
      (r.attempted.Some? <==> ValidateMailjetConfig(cfg)) &&
      (r.success <==> ValidateMailjetConfig(cfg) && transportOk) &&
      (r.attempted.Some? ==> r.attempted.value.subject == EmailSubject(|slots|, doctorName))
  {
  }
}
