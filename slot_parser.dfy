/**
 * The slot parser of the watcher: from the day columns of one remote availability page to the
 * list of bookable slots.  The HTML tokenizer is not modelled; a page is its text together with
 * the tree the tokenizer builds, reduced to what the parser reads: the `div.day-col` containers
 * in document order, each as the document-order list of the elements inside it.
 */
module SlotParser {
  import opened Wrappers
  import opened Strings

  /** One element inside a day column: its tag name and its `href` and `onclick` attributes. */
  datatype Element = Element(tag: string, href: Option<string>, onclick: Option<string>)

  /** A fetched page: the raw markup and its day columns. */
  datatype Page = Page(text: string, dayColumns: seq<seq<Element>>)

  /** A bookable slot as the parser reports it. */
  datatype Slot = Slot(date: string, time: string, datetime: string)

  /** The two captured groups of the booking call in an `onclick` attribute. */
  datatype BookingCall = BookingCall(date: string, time: string)

  /** The character classes the booking pattern uses. */
  datatype CharClass = NotQuoteClass | SpaceClass | DigitClass

  function ClassPred(cls: CharClass): char -> bool
  {
    match cls
    case NotQuoteClass => IsNotQuote
    case SpaceClass => IsSpace
    case DigitClass => IsDigit
  }

  /** One element of a regular expression built from literals and repeated classes. */
  datatype Token =
    | Lit(text: string)          // the text itself
    | Star(cls: CharClass)       // `cls*`
    | Plus(cls: CharClass)       // `cls+`
    | Group(cls: CharClass)      // `(cls+)`, captured

  /** `get_order\('([^']+)',\s*\d+,\s*'([^']+)'` as tokens. */
  const BookingPattern: seq<Token> :=
    [Lit("get_order('"), Group(NotQuoteClass), Lit("',"), Star(SpaceClass), Plus(DigitClass),
     Lit(","), Star(SpaceClass), Lit("'"), Group(NotQuoteClass), Lit("'")]

  /** The literal head of the booking pattern. */
  const CallHead := "get_order('"

  /** The marker the parser looks for before running the pattern. */
  const CallName := "get_order"

  /** Matches `toks` at the start of `t`, taking each repetition greedily, and gives the
      captured groups in order.  Greedy runs are exact for a pattern in which each repetition
      is followed by a character its class excludes, as in the booking pattern. */
  function MatchTokens(toks: seq<Token>, t: string): Option<seq<string>>
    decreases |toks|
  {
    if toks == [] then Some([])
    else
      match toks[0]
      case Lit(x) =>
        if IsPrefix(x, t) then MatchTokens(toks[1..], t[|x|..]) else None
      case Star(cls) =>
        var n := Span(t, 0, ClassPred(cls));
        MatchTokens(toks[1..], t[n..])
      case Plus(cls) =>
        var n := Span(t, 0, ClassPred(cls));
        if n == 0 then None else MatchTokens(toks[1..], t[n..])
      case Group(cls) =>
        var n := Span(t, 0, ClassPred(cls));
        if n == 0 then None
        else
          match MatchTokens(toks[1..], t[n..])
          case None => None
          case Some(gs) => Some([t[..n]] + gs)
  }

  /** The booking pattern anchored at the start of `t`. */
  function MatchCall(t: string): Option<BookingCall>
  {
    match MatchTokens(BookingPattern, t)
    case Some(gs) => if |gs| == 2 then Some(BookingCall(gs[0], gs[1])) else None
    case None => None
  }

  /** The booking pattern anchored at index `i` of `s`. */
  function MatchAt(s: string, i: nat): Option<BookingCall>
    requires i <= |s|
  {
    MatchCall(s[i..])
  }

  /** The leftmost index from `i` on where the pattern matches, or `|s| + 1` when there is
      none: the position `re.search` reports. */
  function FirstMatchFrom(s: string, i: nat): (k: nat)
    requires i <= |s|
    ensures i <= k <= |s| + 1
    ensures NoMatchBetween(s, i, k)
    ensures k <= |s| ==> MatchAt(s, k).Some?
    decreases |s| - i
  {
    if MatchAt(s, i).Some? then i
    else if i == |s| then |s| + 1
    else FirstMatchFrom(s, i + 1)
  }

  /** No match is anchored at any index in `[lo, hi)`. */
  predicate NoMatchBetween(s: string, lo: nat, hi: nat)
  {
    forall k :: lo <= k < hi && k <= |s| ==> MatchAt(s, k).None?
  }

  /** `re.search(pattern, s)`, reduced to its two groups. */
  function Search(s: string): Option<BookingCall>
  {
    var k := FirstMatchFrom(s, 0);
    if k <= |s| then MatchAt(s, k) else None
  }

  /** A text the booking pattern matches at its start: the head, a quoted date, a comma,
      spaces, digits, a comma, spaces and a quoted time, followed by `rest`.  It is
      `CallHead + date + "'," + ws1 + digits + "," + ws2 + "'" + time + "'" + rest`, written
      right-nested. */
  function CallText(date: string, ws1: string, digits: string, ws2: string, time: string, rest: string): string
  {
    CallHead + (date + ("'," + (ws1 + (digits + ("," + (ws2 + ("'" + (time + ("'" + rest)))))))))
  }

  /** The pieces of a call text that the pattern's character classes accept. */
  predicate WellFormedCall(date: string, ws1: string, digits: string, ws2: string, time: string)
  {
    && |date| > 0 && NoQuote(date)
    && AllSpaces(ws1)
    && |digits| > 0 && AllDigits(digits)
    && AllSpaces(ws2)
    && |time| > 0 && NoQuote(time)
  }

  predicate AllInClass(s: string, cls: CharClass)
  {
    forall k :: 0 <= k < |s| ==> ClassPred(cls)(s[k])
  }

  /** `rest` does not continue a run of class `cls`. */
  predicate StopsRun(rest: string, cls: CharClass)
  {
    rest == [] || !ClassPred(cls)(rest[0])
  }

  /** The greedy run of `cls` at the start of `run + rest` is `run`. */
  lemma SpanOfRun(run: string, rest: string, cls: CharClass)
    requires AllInClass(run, cls) && StopsRun(rest, cls)
    ensures Span(run + rest, 0, ClassPred(cls)) == |run|
    ensures (run + rest)[..|run|] == run && (run + rest)[|run|..] == rest
  {
    SpanOfPrefix(run, rest, ClassPred(cls));
  }

  lemma LitStep(toks: seq<Token>, x: string, rest: string)
    requires toks != [] && toks[0] == Lit(x)
    ensures MatchTokens(toks, x + rest) == MatchTokens(toks[1..], rest)
  {
    assert (x + rest)[..|x|] == x && (x + rest)[|x|..] == rest;
  }

  lemma StarStep(toks: seq<Token>, cls: CharClass, run: string, rest: string)
    requires toks != [] && toks[0] == Star(cls) && AllInClass(run, cls) && StopsRun(rest, cls)
    ensures MatchTokens(toks, run + rest) == MatchTokens(toks[1..], rest)
  {
    SpanOfRun(run, rest, cls);
  }

  lemma PlusStep(toks: seq<Token>, cls: CharClass, run: string, rest: string)
    requires toks != [] && toks[0] == Plus(cls) && |run| > 0 && AllInClass(run, cls) && StopsRun(rest, cls)
    ensures MatchTokens(toks, run + rest) == MatchTokens(toks[1..], rest)
  {
    SpanOfRun(run, rest, cls);
  }

  lemma GroupStep(toks: seq<Token>, cls: CharClass, run: string, rest: string)
    requires toks != [] && toks[0] == Group(cls) && |run| > 0 && AllInClass(run, cls) && StopsRun(rest, cls)
    ensures MatchTokens(toks, run + rest) ==
      match MatchTokens(toks[1..], rest)
      case None => None
      case Some(gs) => Some([run] + gs)
  {
    SpanOfRun(run, rest, cls);
  }

  // The completeness proof walks the pattern one token at a time, from its end.

  lemma QuotedTimeComplete(time: string, rest: string)
    requires |time| > 0 && NoQuote(time)
    ensures MatchTokens(BookingPattern[8..], time + ("'" + rest)) == Some([time])
  {
    var p := BookingPattern;
    assert p[9..][1..] == [];
    LitStep(p[9..], "'", rest);
    assert p[8..][1..] == p[9..];
    GroupStep(p[8..], NotQuoteClass, time, "'" + rest);
    assert [time] + [] == [time];
  }

  lemma SecondFieldComplete(ws2: string, time: string, rest: string)
    requires AllSpaces(ws2) && |time| > 0 && NoQuote(time)
    ensures MatchTokens(BookingPattern[5..], "," + (ws2 + ("'" + (time + ("'" + rest))))) == Some([time])
  {
    var p := BookingPattern;
    QuotedTimeComplete(time, rest);
    var t8 := time + ("'" + rest);
    assert p[7..][1..] == p[8..];
    LitStep(p[7..], "'", t8);
    assert p[6..][1..] == p[7..];
    StarStep(p[6..], SpaceClass, ws2, "'" + t8);
    assert p[5..][1..] == p[6..];
    LitStep(p[5..], ",", ws2 + ("'" + t8));
  }

  /** The pattern after the date group: `',`, spaces, digits, `,`, spaces and a quoted
      time. */
  lemma TailComplete(ws1: string, digits: string, ws2: string, time: string, rest: string)
    requires AllSpaces(ws1) && |digits| > 0 && AllDigits(digits) && AllSpaces(ws2) && |time| > 0 && NoQuote(time)
    ensures MatchTokens(BookingPattern[2..], "'," + (ws1 + (digits + ("," + (ws2 + ("'" + (time + ("'" + rest))))))))
      == Some([time])
  {
    var p := BookingPattern;
    var t5 := "," + (ws2 + ("'" + (time + ("'" + rest))));
    SecondFieldComplete(ws2, time, rest);
    assert p[4..][1..] == p[5..];
    PlusStep(p[4..], DigitClass, digits, t5);
    assert p[3..][1..] == p[4..];
    StarStep(p[3..], SpaceClass, ws1, digits + t5);
    assert p[2..][1..] == p[3..];
    LitStep(p[2..], "',", ws1 + (digits + t5));
  }

  /** Completeness of the matcher: a well-formed call text is matched, and the groups are its
      date and its time, whatever follows it. */
  lemma MatchCallComplete(date: string, ws1: string, digits: string, ws2: string, time: string, rest: string)
    requires WellFormedCall(date, ws1, digits, ws2, time)
    ensures MatchCall(CallText(date, ws1, digits, ws2, time, rest)) == Some(BookingCall(date, time))
  {
    var p := BookingPattern;
    var t2 := "'," + (ws1 + (digits + ("," + (ws2 + ("'" + (time + ("'" + rest)))))));
    var t1 := date + t2;
    TailComplete(ws1, digits, ws2, time, rest);
    assert p[1..][1..] == p[2..];
    NotQuoteInClass(date);
    assert t2[0] == '\'';
    GroupStep(p[1..], NotQuoteClass, date, t2);
    assert MatchTokens(p[1..], t1) == Some([date] + [time]);
    LitStep(p, CallHead, t1);
    assert CallText(date, ws1, digits, ws2, time, rest) == CallHead + t1;
    var gs := [date] + [time];
    assert |gs| == 2 && gs[0] == date && gs[1] == time;
  }

  lemma NotQuoteInClass(s: string)
    requires NoQuote(s)
    ensures AllInClass(s, NotQuoteClass)
  {
    forall k | 0 <= k < |s| ensures ClassPred(NotQuoteClass)(s[k]) {
      assert IsNotQuote(s[k]);
    }
  }

  lemma LitSound(toks: seq<Token>, x: string, t: string)
    requires toks != [] && toks[0] == Lit(x) && MatchTokens(toks, t).Some?
    ensures t == x + t[|x|..] && MatchTokens(toks[1..], t[|x|..]) == MatchTokens(toks, t)
  {
    assert t == t[..|x|] + t[|x|..];
  }

  lemma RunSound(toks: seq<Token>, cls: CharClass, t: string) returns (run: string, rest: string)
    requires toks != [] && (toks[0] == Star(cls) || toks[0] == Plus(cls) || toks[0] == Group(cls))
    requires MatchTokens(toks, t).Some?
    ensures t == run + rest && AllInClass(run, cls) && StopsRun(rest, cls)
    ensures toks[0] != Star(cls) ==> |run| > 0
    ensures MatchTokens(toks[1..], rest).Some?
    ensures toks[0] == Group(cls) ==> MatchTokens(toks, t) == Some([run] + MatchTokens(toks[1..], rest).value)
    ensures toks[0] != Group(cls) ==> MatchTokens(toks, t) == MatchTokens(toks[1..], rest)
  {
    var n := Span(t, 0, ClassPred(cls));
    run, rest := t[..n], t[n..];
    assert t == run + rest;
    forall k | 0 <= k < |run| ensures ClassPred(cls)(run[k]) { assert run[k] == t[k]; }
    if rest != [] { assert rest[0] == t[n]; }
  }

  lemma ClassWords(s: string)
    ensures AllInClass(s, NotQuoteClass) ==> NoQuote(s)
    ensures AllInClass(s, SpaceClass) ==> AllSpaces(s)
    ensures AllInClass(s, DigitClass) ==> AllDigits(s)
  {
    if AllInClass(s, NotQuoteClass) {
      forall k | 0 <= k < |s| ensures s[k] != '\'' { assert ClassPred(NotQuoteClass)(s[k]); }
    }
    if AllInClass(s, SpaceClass) {
      forall k | 0 <= k < |s| ensures IsSpace(s[k]) { assert ClassPred(SpaceClass)(s[k]); }
    }
    if AllInClass(s, DigitClass) {
      forall k | 0 <= k < |s| ensures IsDigit(s[k]) { assert ClassPred(DigitClass)(s[k]); }
    }
  }

  // The soundness proof walks the pattern from its start, one stage per lemma.

  lemma QuotedTimeSound(t8: string) returns (time: string, rest: string)
    requires MatchTokens(BookingPattern[8..], t8).Some?
    ensures MatchTokens(BookingPattern[8..], t8) == Some([time])
    ensures |time| > 0 && NoQuote(time) && t8 == time + ("'" + rest)
  {
    var p := BookingPattern;
    var t9;
    time, t9 := RunSound(p[8..], NotQuoteClass, t8);
    assert p[8..][1..] == p[9..];
    LitSound(p[9..], "'", t9);
    rest := t9[1..];
    assert p[9..][1..] == [];
    assert [time] + [] == [time];
    ClassWords(time);
  }

  lemma SecondFieldSound(t5: string) returns (ws2: string, time: string, rest: string)
    requires MatchTokens(BookingPattern[5..], t5).Some?
    ensures MatchTokens(BookingPattern[5..], t5) == Some([time])
    ensures AllSpaces(ws2) && |time| > 0 && NoQuote(time)
    ensures t5 == "," + (ws2 + ("'" + (time + ("'" + rest))))
  {
    var p := BookingPattern;
    LitSound(p[5..], ",", t5);
    var t6 := t5[1..];
    assert p[5..][1..] == p[6..];
    var t7;
    ws2, t7 := RunSound(p[6..], SpaceClass, t6);
    assert p[6..][1..] == p[7..];
    LitSound(p[7..], "'", t7);
    assert p[7..][1..] == p[8..];
    time, rest := QuotedTimeSound(t7[1..]);
    ClassWords(ws2);
  }

  /** The part of the pattern after `',`: spaces, digits, a comma, spaces and a quoted
      time. */
  lemma TailSound(t3: string) returns (ws1: string, digits: string, ws2: string, time: string, rest: string)
    requires MatchTokens(BookingPattern[3..], t3).Some?
    ensures MatchTokens(BookingPattern[3..], t3) == Some([time])
    ensures AllSpaces(ws1) && |digits| > 0 && AllDigits(digits) && AllSpaces(ws2) && |time| > 0 && NoQuote(time)
    ensures t3 == ws1 + (digits + ("," + (ws2 + ("'" + (time + ("'" + rest))))))
  {
    var p := BookingPattern;
    var t4, t5;
    ws1, t4 := RunSound(p[3..], SpaceClass, t3);
    assert p[3..][1..] == p[4..];
    digits, t5 := RunSound(p[4..], DigitClass, t4);
    assert p[4..][1..] == p[5..];
    ws2, time, rest := SecondFieldSound(t5);
    ClassWords(ws1);
    ClassWords(digits);
  }

  /** The pattern up to `',`: the head and a quoted date. */
  lemma HeadSound(t: string) returns (date: string, t3: string)
    requires MatchTokens(BookingPattern, t).Some?
    ensures |date| > 0 && NoQuote(date) && t == CallHead + (date + ("'," + t3))
    ensures MatchTokens(BookingPattern[3..], t3).Some?
    ensures MatchTokens(BookingPattern, t) == Some([date] + MatchTokens(BookingPattern[3..], t3).value)
  {
    var p := BookingPattern;
    assert p[0..] == p;
    LitSound(p, CallHead, t);
    var t1 := t[|CallHead|..];
    assert p[0..][1..] == p[1..];
    var t2;
    date, t2 := RunSound(p[1..], NotQuoteClass, t1);
    assert p[1..][1..] == p[2..];
    LitSound(p[2..], "',", t2);
    t3 := t2[2..];
    assert p[2..][1..] == p[3..];
    ClassWords(date);
  }

  /** Soundness of the matcher: a match is a well-formed call text whose date and time are
      the captured groups. */
  lemma MatchCallSound(t: string)
    requires MatchCall(t).Some?
    ensures var m := MatchCall(t).value;
      exists ws1, digits, ws2, rest ::
        WellFormedCall(m.date, ws1, digits, ws2, m.time) && t == CallText(m.date, ws1, digits, ws2, m.time, rest)
  {
    var date, t3 := HeadSound(t);
    var ws1, digits, ws2, time, rest := TailSound(t3);
    assert MatchTokens(BookingPattern, t) == Some([date] + [time]);
    assert MatchCall(t) == Some(BookingCall(date, time));
    assert WellFormedCall(date, ws1, digits, ws2, time);
    assert t == CallText(date, ws1, digits, ws2, time, rest);
  }

  lemma HeadHasCallName(s: string, k: nat)
    requires k <= |s| && IsPrefix(CallHead, s[k..])
    ensures Contains(s, CallName)
  {
    var t := s[k..];
    assert t[..|CallName|] == CallName by { assert t[..|CallName|] == t[..|CallHead|][..|CallName|]; }
    assert s[k..k + |CallName|] == t[..|CallName|];
    assert OccursAt(s, CallName, k);
  }

  /** Whenever the pattern matches, the `'get_order' in onclick` pre-check holds too. */
  lemma MatchImpliesCallName(s: string)
    requires Search(s).Some?
    ensures Contains(s, CallName)
  {
    var k := FirstMatchFrom(s, 0);
    var p := BookingPattern;
    assert p[0] == Lit(CallHead);
    assert IsPrefix(CallHead, s[k..]);
    HeadHasCallName(s, k);
  }

  /** `column.find_all('a', href='javascript:;')`: the anchors that mark bookable slots.
      Reserved slots are `span` elements and never pass. */
  predicate IsBookingLink(e: Element)
  {
    e.tag == "a" && e.href == Some("javascript:;")
  }

  /** `link.get('onclick', '')`. */
  function OnclickOf(e: Element): string
  {
    match e.onclick
    case Some(v) => v
    case None => ""
  }

  /** The slot one element contributes, if any. */
  function ElementSlot(e: Element): Option<Slot>
  {
    if !IsBookingLink(e) then None
    else
      var onclick := OnclickOf(e);
      if !Contains(onclick, CallName) then None
      else
        match Search(onclick)
        case None => None
        case Some(m) => Some(Slot(m.date, m.time, m.date + " " + m.time))
  }

  /** A slot as the parser builds it: non-empty date and time without quotes, joined by a space. */
  predicate WellFormedSlot(s: Slot)
  {
    |s.date| > 0 && NoQuote(s.date) && |s.time| > 0 && NoQuote(s.time) && s.datetime == s.date + " " + s.time
  }

  /** What the parser yields for an element: nothing unless it is a booking link whose `onclick`
      holds the leftmost booking call; then exactly that call's date and time. */
  lemma ElementSlotSpec(e: Element)
    ensures ElementSlot(e).Some? <==> IsBookingLink(e) && Search(OnclickOf(e)).Some?
    ensures ElementSlot(e).Some? ==>
      var m := Search(OnclickOf(e)).value;
      var sl := ElementSlot(e).value;
      WellFormedSlot(sl) && sl.date == m.date && sl.time == m.time
  {
    if IsBookingLink(e) && Search(OnclickOf(e)).Some? {
      var s := OnclickOf(e);
      MatchImpliesCallName(s);
      MatchCallSound(s[FirstMatchFrom(s, 0)..]);
    }
  }

  /** The slots of one column, in element order. */
  function ColumnSlots(column: seq<Element>): seq<Slot>
  {
    if column == [] then []
    else
      var last := column[|column| - 1];
      ColumnSlots(column[..|column| - 1]) + (if ElementSlot(last).Some? then [ElementSlot(last).value] else [])
  }

  /** The slots of a list of columns, column by column. */
  function ColumnsSlots(columns: seq<seq<Element>>): seq<Slot>
  {
    if columns == [] then []
    else ColumnsSlots(columns[..|columns| - 1]) + ColumnSlots(columns[|columns| - 1])
  }

  /** `parse_available_slots`: empty markup gives no slots; otherwise the column slots. */
  function PageSlots(page: Page): seq<Slot>
  {
    if page.text == "" then [] else ColumnsSlots(page.dayColumns)
  }

  /** One more element extends the column's slots by what that element yields. */
  lemma ColumnSlotsPrefix(column: seq<Element>, j: nat)
    requires j < |column|
    ensures ColumnSlots(column[..j + 1]) ==
      ColumnSlots(column[..j]) + (if ElementSlot(column[j]).Some? then [ElementSlot(column[j]).value] else [])
  {
    assert column[..j + 1][..j] == column[..j] && column[..j + 1][j] == column[j];
  }

  /** One more column extends the page's slots by that column's. */
  lemma ColumnsSlotsPrefix(columns: seq<seq<Element>>, i: nat)
    requires i < |columns|
    ensures ColumnsSlots(columns[..i + 1]) == ColumnsSlots(columns[..i]) + ColumnSlots(columns[i])
  {
    assert columns[..i + 1][..i] == columns[..i] && columns[..i + 1][i] == columns[i];
  }

  /** `parse_available_slots`, as the loop over day columns the source runs. */
  method ParseAvailableSlots(page: Page) returns (slots: seq<Slot>)
    ensures slots == PageSlots(page)
  {
    if page.text == "" {
      return [];
    }
    slots := [];
    var i := 0;
    while i < |page.dayColumns|
      invariant 0 <= i <= |page.dayColumns|
      invariant slots == ColumnsSlots(page.dayColumns[..i])
    {
      var found := ColumnLinkSlots(page.dayColumns[i]);
      ColumnsSlotsPrefix(page.dayColumns, i);
      slots := slots + found;
      i := i + 1;
    }
    assert page.dayColumns[..i] == page.dayColumns;
  }

  /** The inner loop of `parse_available_slots`: the booking links of one day column, in
      document order, each contributing the slot its `onclick` call names. */
  method ColumnLinkSlots(column: seq<Element>) returns (found: seq<Slot>)
    ensures found == ColumnSlots(column)
  {
    found := [];
    var j := 0;
    while j < |column|
      invariant 0 <= j <= |column|
      invariant found == ColumnSlots(column[..j])
    {
      var slot := ElementSlot(column[j]);
      ColumnSlotsPrefix(column, j);
      if slot.Some? {
        found := found + [slot.value];
      }
      j := j + 1;
    }
    assert column[..j] == column;
  }

  /** The number of elements of a column that yield a slot. */
  function CountSlotElements(column: seq<Element>): nat
  {
    if column == [] then 0
    else CountSlotElements(column[..|column| - 1]) + (if ElementSlot(column[|column| - 1]).Some? then 1 else 0)
  }

  /** Each column yields exactly one slot per qualifying element, each well formed, and each
      slot is the one some element of the column yields. */
  lemma {:induction false} ColumnSlotsSpec(column: seq<Element>)
    ensures |ColumnSlots(column)| == CountSlotElements(column) <= |column|
    ensures forall k :: 0 <= k < |ColumnSlots(column)| ==> WellFormedSlot(ColumnSlots(column)[k])
    ensures forall k :: 0 <= k < |ColumnSlots(column)| ==>
      exists j :: 0 <= j < |column| && ElementSlot(column[j]) == Some(ColumnSlots(column)[k])
  {
    if column != [] {
      var init := column[..|column| - 1];
      var last := column[|column| - 1];
      ColumnSlotsSpec(init);
      ElementSlotSpec(last);
      var r := ColumnSlots(column);
      forall k | 0 <= k < |r|
        ensures WellFormedSlot(r[k])
        ensures exists j :: 0 <= j < |column| && ElementSlot(column[j]) == Some(r[k])
      {
        if k < |ColumnSlots(init)| {
          assert r[k] == ColumnSlots(init)[k];
          var j :| 0 <= j < |init| && ElementSlot(init[j]) == Some(r[k]);
          assert column[j] == init[j];
        } else {
          assert ElementSlot(column[|column| - 1]) == Some(r[k]);
        }
      }
    }
  }

  /** The number of elements of all columns that yield a slot. */
  function CountPageSlotElements(columns: seq<seq<Element>>): nat
  {
    if columns == [] then 0
    else CountPageSlotElements(columns[..|columns| - 1]) + CountSlotElements(columns[|columns| - 1])
  }

  /** The page yields one well-formed slot per qualifying anchor and nothing else: every slot
      is the one some element of some day column yields. */
  lemma {:induction false} ColumnsSlotsSpec(columns: seq<seq<Element>>)
    ensures |ColumnsSlots(columns)| == CountPageSlotElements(columns)
    ensures forall k :: 0 <= k < |ColumnsSlots(columns)| ==> WellFormedSlot(ColumnsSlots(columns)[k])
    ensures forall k :: 0 <= k < |ColumnsSlots(columns)| ==>
      exists c, j :: 0 <= c < |columns| && 0 <= j < |columns[c]| && ElementSlot(columns[c][j]) == Some(ColumnsSlots(columns)[k])
  {
    if columns != [] {
      var init := columns[..|columns| - 1];
      var last := columns[|columns| - 1];
      ColumnsSlotsSpec(init);
      ColumnSlotsSpec(last);
      var r := ColumnsSlots(columns);
      forall k | 0 <= k < |r|
        ensures WellFormedSlot(r[k])
        ensures exists c, j :: 0 <= c < |columns| && 0 <= j < |columns[c]| && ElementSlot(columns[c][j]) == Some(r[k])
      {
        if k < |ColumnsSlots(init)| {
          assert r[k] == ColumnsSlots(init)[k];
          var c, j :| 0 <= c < |init| && 0 <= j < |init[c]| && ElementSlot(init[c][j]) == Some(r[k]);
          assert columns[c] == init[c];
        } else {
          var k' := k - |ColumnsSlots(init)|;
          assert r[k] == ColumnSlots(last)[k'];
          var j :| 0 <= j < |last| && ElementSlot(last[j]) == Some(r[k]);
          assert columns[|columns| - 1] == last;
        }
      }
    }
  }

  /** Column order is kept: the slots of two runs of columns are those of the first run
      followed by those of the second. */
  lemma {:induction false} ColumnsSlotsAppend(xs: seq<seq<Element>>, ys: seq<seq<Element>>)
    ensures ColumnsSlots(xs + ys) == ColumnsSlots(xs) + ColumnsSlots(ys)
    decreases |ys|
  {
    if ys == [] {
      assert xs + ys == xs;
    } else {
      var ys' := ys[..|ys| - 1];
      var c := ys[|ys| - 1];
      assert (xs + ys)[..|xs + ys| - 1] == xs + ys';
      assert (xs + ys)[|xs + ys| - 1] == c;
      ColumnsSlotsAppend(xs, ys');
      var tail := ColumnSlots(c);
      assert ColumnsSlots(xs + ys) == ColumnsSlots(xs + ys') + tail;
      assert ColumnsSlots(ys) == ColumnsSlots(ys') + tail;
    }
  }

  /** Element order is kept within a column, in the same sense. */
  lemma {:induction false} ColumnSlotsAppend(xs: seq<Element>, ys: seq<Element>)
    ensures ColumnSlots(xs + ys) == ColumnSlots(xs) + ColumnSlots(ys)
    decreases |ys|
  {
    if ys == [] {
      assert xs + ys == xs;
    } else {
      var ys' := ys[..|ys| - 1];
      var y := ys[|ys| - 1];
      var last := if ElementSlot(y).Some? then [ElementSlot(y).value] else [];
      assert (xs + ys)[..|xs + ys| - 1] == xs + ys';
      assert (xs + ys)[|xs + ys| - 1] == y;
      ColumnSlotsAppend(xs, ys');
      assert ColumnSlots(xs + ys) == ColumnSlots(xs + ys') + last;
      assert ColumnSlots(ys) == ColumnSlots(ys') + last;
    }
  }

  /** An element that is not a booking link (a reserved-slot `span`, say) can be added anywhere
      in a column without changing what the column yields. */
  lemma ReservedMarkerIgnored(xs: seq<Element>, e: Element, ys: seq<Element>)
    requires !IsBookingLink(e)
    ensures ColumnSlots(xs + [e] + ys) == ColumnSlots(xs + ys)
  {
    ColumnSlotsAppend(xs + [e], ys);
    ColumnSlotsAppend(xs, ys);
    assert (xs + [e])[..|xs + [e]| - 1] == xs;
  }
}
