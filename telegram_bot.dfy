/** The Telegram front end: the `/remind` parser, the command router, and
    one pass of the long-polling loop with its update offset.

    HTTP is abstracted: a pass is given the updates `getUpdates` returned,
    `send_message` appends to an outbox, and the values the code draws from
    the outside world for each update (a fresh `uuid4().hex`, the current
    UTC time) are an `Ambient` parameter. */
module TelegramBot {

  import opened PyText
  import PyCall
  import Links
  import Memory
  import Reminders

  // ---------------------------------------------------------------------
  // Constants of the runtime

  /** `datetime.max` as microseconds since `0001-01-01T00:00:00`: its
      ordinal is 3652059, and it is the last microsecond of that day. */
  const MaxMicros: nat := 3652059 * 86400 * 1000000 - 1

  /** The bound `timedelta` puts on its day count. */
  const MaxDeltaDays: int := 999999999

  /** The largest value of a C `int`. */
  const CIntMax: int := 2147483647

  const UsageText: string := "Usage: /remind <seconds> <message>"

  // ---------------------------------------------------------------------
  // `_parse_remind_command`

  /** The exceptions the `/remind` branch can catch. */
  datatype RemindError =
    | Usage
    | NotAnInteger(token: string)
    | NotPositive
    | EmptyMessage
    | CIntOverflow
    | DaysOverflow(days: int)
    | DateOverflow
    | Raised(message: string)

  datatype ParseResult = Parsed(seconds: int, message: string) | Rejected(error: RemindError)

  /** `_parse_remind_command`: split into at most three parts, convert the
      second with `int()`, strip the third; reject a short command, a
      non-integer, a non-positive count and an empty message, in that
      order. */
  function ParseRemindCommand(text: string): (r: ParseResult)
    ensures r.Parsed? ==>
      && r.seconds > 0 && r.message != []
      && |Split(text, 2)| == 3
      && ParseInt(Split(text, 2)[1]) == Some(r.seconds)
      && r.message == Strip(Split(text, 2)[2])
    ensures r.Rejected? && r.error.NotAnInteger? ==>
      |Split(text, 2)| == 3 && r.error.token == Split(text, 2)[1] && ParseInt(r.error.token).None?
  {
    var parts := Split(text, 2);
    SplitCount(text, 2);
    if |parts| < 3 then Rejected(Usage)
    else match ParseInt(parts[1])
      case None => Rejected(NotAnInteger(parts[1]))
      case Some(seconds) =>
        var message := Strip(parts[2]);
        if seconds <= 0 then Rejected(NotPositive)
        else if message == [] then Rejected(EmptyMessage)
        else Parsed(seconds, message)
  }

  /** `str(e)` for each exception. `int()` quotes at most 200 characters of
      the offending text's `repr`. */
  function ErrorText(e: RemindError): (r: string)
    ensures e.NotAnInteger? ==>
      var prefix := "invalid literal for int() with base 10: ";
      && StartsWith(r, prefix) && |prefix| + 2 <= |r| <= |prefix| + 200
      && StartsWith(Repr(e.token), r[|prefix|..])
      && (|Repr(e.token)| <= 200 ==> r == prefix + Repr(e.token))
    ensures e.Raised? ==> r == e.message
  {
    match e
    case Usage => UsageText
    case NotAnInteger(token) =>
      var r := Repr(token);
      "invalid literal for int() with base 10: " + (if |r| <= 200 then r else r[..200])
    case NotPositive => "Seconds must be > 0"
    case EmptyMessage => "Reminder message cannot be empty"
    case CIntOverflow => "Python int too large to convert to C int"
    case DaysOverflow(days) => "days=" + IntToString(days) + "; must have magnitude <= 999999999"
    case DateOverflow => "date value out of range"
    case Raised(message) => message
  }

  lemma StripStartingWord(s: string)
    requires s != [] && !IsSpace(s[0])
    ensures LStrip(s) == s && Strip(s) != []
  {
  }

  /** The command is rejected for its length exactly when it has fewer than
      three whitespace-separated fields. */
  lemma UsageIff(text: string)
    ensures ParseRemindCommand(text) == Rejected(Usage) <==> |Fields(text)| < 3
  {
    SplitCount(text, 2);
  }

  /** The third part of a three-way split starts with a non-space
      character, so the stripped message is never empty: the
      "cannot be empty" check never fires. */
  lemma EmptyMessageNeverRaised(text: string)
    ensures ParseRemindCommand(text) != Rejected(EmptyMessage)
  {
    var parts := Split(text, 2);
    if |parts| >= 3 {
      StripStartingWord(parts[2]);
    }
  }

  /** A parsed command's count is the integer value of its second field. */
  lemma ParsedSecondsIsSecondField(text: string)
    requires ParseRemindCommand(text).Parsed?
    ensures |Fields(text)| >= 3
    ensures ParseInt(Fields(text)[1]) == Some(ParseRemindCommand(text).seconds)
  {
    SplitCount(text, 2);
    SplitAgreesWithFields(text, 2, 1);
  }

  /** The outcome of a command with at least three fields, in terms of its
      second field: not an integer, not positive, or accepted. */
  lemma ParseOutcomes(text: string)
    ensures ParseRemindCommand(text).Rejected? && ParseRemindCommand(text).error.NotAnInteger?
      <==> |Fields(text)| >= 3 && ParseInt(Fields(text)[1]).None?
    ensures ParseRemindCommand(text) == Rejected(NotPositive)
      <==> |Fields(text)| >= 3 && ParseInt(Fields(text)[1]).Some? && ParseInt(Fields(text)[1]).value <= 0
    ensures ParseRemindCommand(text).Parsed?
      <==> |Fields(text)| >= 3 && ParseInt(Fields(text)[1]).Some? && ParseInt(Fields(text)[1]).value > 0
  {
    SplitCount(text, 2);
    if |Split(text, 2)| >= 3 {
      SplitAgreesWithFields(text, 2, 1);
      EmptyMessageNeverRaised(text);
    }
  }

  /** `/remind <n> <message>` with a positive `n` and a message without
      surrounding whitespace parses back to `n` and the message, whatever
      whitespace the message holds inside. */
  lemma RemindRoundTrip(n: int, m: string)
    requires n > 0 && m != [] && Strip(m) == m
    ensures ParseRemindCommand("/remind " + IntToString(n) + " " + m) == Parsed(n, m)
  {
    NatToStringNoSpace(n);
    ParseIntOfIntToString(n);
    StrippedEnds(m);
    SplitRemindText(IntToString(n), m);
  }

  /** The three parts of `/remind <d> <m>` for a word `d` and a text `m`
      that starts with a non-space character. */
  lemma SplitRemindText(d: string, m: string)
    requires d != [] && NoSpace(d) && m != [] && !IsSpace(m[0])
    ensures Split("/remind " + d + " " + m, 2) == ["/remind", d, m]
  {
    var rest := " " + m;
    var tail := " " + d + rest;
    RemindTextShape(d, m);
    assert NoSpace("/remind");
    SplitWord([], "/remind", tail, 2);
    SplitWord(" ", d, rest, 1);
    SplitRemainder(" ", m);
  }

  lemma RemindTextShape(d: string, m: string)
    ensures "/remind " + d + " " + m == [] + "/remind" + (" " + d + (" " + m))
  {
    assert "/remind " == "/remind" + " ";
  }

  // ---------------------------------------------------------------------
  // The `/remind` branch of `_handle_commands`

  datatype RemindOutcome = Set(seconds: int, message: string) | Failed(error: RemindError)

  /** The `try` block of the `/remind` branch at the UTC time `now`: parse,
      build `utcnow() + timedelta(seconds=...)` (which can overflow), then
      call `add_reminder(msg, due_at)`. */
  function TryRemind(text: string, now: nat): (r: RemindOutcome)
    requires now <= MaxMicros
    ensures ParseRemindCommand(text).Rejected? ==> r == Failed(ParseRemindCommand(text).error)
    ensures ParseRemindCommand(text).Parsed? ==>
      var days := ParseRemindCommand(text).seconds / 86400;
      && (r == Failed(CIntOverflow) <==> days > CIntMax)
      && (r.Failed? && r.error.DaysOverflow? <==> MaxDeltaDays < days <= CIntMax)
      && (r == Failed(DateOverflow) <==>
            days <= MaxDeltaDays && now + ParseRemindCommand(text).seconds * 1000000 > MaxMicros)
    ensures r.Set? ==>
      ParseRemindCommand(text) == Parsed(r.seconds, r.message) && now + r.seconds * 1000000 <= MaxMicros
  {
    match ParseRemindCommand(text)
    case Rejected(e) => Failed(e)
    case Parsed(seconds, message) =>
      var days := seconds / 86400;
      if days > CIntMax then Failed(CIntOverflow)
      else if days > MaxDeltaDays then Failed(DaysOverflow(days))
      else if now + seconds * 1000000 > MaxMicros then Failed(DateOverflow)
      else match PyCall.Bind(Reminders.AddReminderSignature(), PyCall.Call(2, []))
        case TypeError(m) => Failed(Raised(m))
        case Binds => Set(seconds, message)
  }

  /** The reply the `/remind` branch sends. */
  function RemindReply(text: string, now: nat): string
    requires now <= MaxMicros
  {
    match TryRemind(text, now)
    case Set(seconds, message) => "Reminder set for " + IntToString(seconds) + " seconds from now: " + message
    case Failed(e) => "Could not set reminder. " + ErrorText(e) + "\n" + UsageText
  }

  /** The `TypeError` texts of the two mismatched calls, written as the
      pieces CPython assembles them from. */
  const AddReminderMessage: string :=
    "add_reminder" + "() missing " + "1" + " required positional " + "argument" + ": " + "'due_at'"

  const QueryMemoryMessage: string :=
    "query_memory" + "() got an unexpected keyword argument " + "'namespace'"

  /** `add_reminder(msg, due_at)` passes two arguments to a function of
      three required parameters: CPython raises before the body runs. */
  lemma AddReminderCallFails()
    ensures PyCall.Bind(Reminders.AddReminderSignature(), PyCall.Call(2, []))
      == PyCall.TypeError(AddReminderMessage)
  {
    var sig := Reminders.AddReminderSignature();
    assert PyCall.Missing(sig.params[2..], 0, []) == ["due_at"];
    assert PyCall.Missing(sig.params[1..], 1, []) == ["due_at"];
    assert PyCall.Missing(sig.params, 2, []) == ["due_at"];
    assert NatToString(1) == "1";
    assert PyCall.JoinNames(["due_at"]) == "'due_at'";
  }

  /** No `/remind` command ever sets a reminder: whatever the text and the
      clock, the branch ends in the `except` and replies with the failure
      text. */
  lemma RemindNeverSets(text: string, now: nat)
    requires now <= MaxMicros
    ensures TryRemind(text, now).Failed?
    ensures RemindReply(text, now)
      == "Could not set reminder. " + ErrorText(TryRemind(text, now).error) + "\n" + UsageText
  {
    AddReminderCallFails();
  }

  /** A well-formed command whose due time is representable fails on the
      call to `add_reminder` and reports that exception. */
  lemma RemindReportsArity(n: int, m: string, now: nat)
    requires n > 0 && m != [] && Strip(m) == m
    requires now + n * 1000000 <= MaxMicros
    ensures TryRemind("/remind " + IntToString(n) + " " + m, now)
      == Failed(Raised(AddReminderMessage))
  {
    RemindRoundTrip(n, m);
    AddReminderCallFails();
  }

  // ---------------------------------------------------------------------
  // `_handle_commands`

  /** Which branch of `_handle_commands` a text takes. */
  datatype Command = Help | Remind | Link | Join(code: string) | JoinUsage | Unlink | Other

  /** The tests of `_handle_commands` in their order, on `user_text.lower()
      .strip()`; the `/join` code is taken from the original text. */
  function Classify(text: string): (c: Command)
    ensures c.Join? ==> c.code != [] && !IsSpace(c.code[0]) && !IsSpace(c.code[|c.code| - 1])
  {
    var lower := Strip(Lower(text));
    if lower == "/help" || lower == "help" then Help
    else if StartsWith(lower, "/remind") then Remind
    else if lower == "/link" then Link
    else if StartsWith(lower, "/join ") then
      var parts := Split(text, 1);
      if |parts| != 2 || Strip(parts[1]) == [] then JoinUsage else Join(Strip(parts[1]))
    else if lower == "/unlink" then Unlink
    else Other
  }

  const HelpText: string :=
    "Commands:\n/remind <seconds> <message>\n  Example: /remind 30 test this\n"
    + "/link  (create a shared memory code)\n/join <code> (join shared memory)\n"
    + "/unlink (return to private memory)\n"

  function LinkReply(code: string): string {
    "Link code created: " + code + "\nShare this code and use /join " + code + " in another chat."
  }

  function JoinReply(code: string): string {
    "Joined shared memory space: " + code
  }

  const JoinUsageText: string := "Usage: /join <code>"

  const UnlinkText: string := "This chat is now private again (no shared memory)."

  /** What the outside world supplies while one update is handled. */
  datatype Ambient = Ambient(uuidHex: string, nowMicros: nat)

  /** `uuid4().hex` is 32 lower-case hex digits; `utcnow()` is a datetime. */
  predicate Sane(amb: Ambient) {
    Links.IsUuidHex(amb.uuidHex) && amb.nowMicros <= MaxMicros
  }

  /** The outcome of `_handle_commands`: `False`, or `True` with the new
      link table and the one message sent. */
  datatype Reaction = Unhandled | Handled(links: map<string, string>, reply: string)

  function React(links: map<string, string>, chatId: int, text: string, amb: Ambient): (r: Reaction)
    requires Sane(amb)
    ensures r.Handled? && Classify(text) == Link ==>
      Links.Namespace(r.links, chatId) == "link:" + amb.uuidHex[..10]
    ensures r.Handled? && Classify(text).Join? ==>
      Links.Namespace(r.links, chatId) == "link:" + Classify(text).code
    ensures r.Handled? && Classify(text) == Unlink ==>
      Links.Namespace(r.links, chatId) == "tg:" + IntToString(chatId)
    ensures r.Handled? && Classify(text) in {Help, Remind, JoinUsage} ==> r.links == links
  {
    match Classify(text)
    case Help => Handled(links, HelpText)
    case Remind => Handled(links, RemindReply(text, amb.nowMicros))
    case Link =>
      var code := amb.uuidHex[..10];
      Handled(links[Links.Key(chatId) := code], LinkReply(code))
    case Join(code) => Handled(links[Links.Key(chatId) := code], JoinReply(code))
    case JoinUsage => Handled(links, JoinUsageText)
    case Unlink => Handled(links - {Links.Key(chatId)}, UnlinkText)
    case Other => Unhandled
  }

  /** `_handle_commands` returns `False` exactly for text that matches no
      command, and then touches neither the link table nor the reminders
      and sends nothing; every handled text sends exactly one reply and
      changes at most the chat's own link row. */
  lemma ReactIff(links: map<string, string>, chatId: int, text: string, amb: Ambient)
    requires Sane(amb)
    ensures React(links, chatId, text, amb).Unhandled? <==> Classify(text) == Other
    ensures React(links, chatId, text, amb).Handled? ==>
      forall k :: k != Links.Key(chatId) ==>
        (k in React(links, chatId, text, amb).links <==> k in links)
        && (k in links ==> React(links, chatId, text, amb).links[k] == links[k])
  {
  }

  /** Any text whose lowered, stripped form starts with `/remind` is
      handled, whether or not it parses, and always as a failure. */
  lemma RemindPrefixHandled(links: map<string, string>, chatId: int, text: string, amb: Ambient)
    requires Sane(amb)
    requires StartsWith(Strip(Lower(text)), "/remind")
    ensures var r := React(links, chatId, text, amb);
      r.Handled? && r.links == links && r.reply == RemindReply(text, amb.nowMicros)
      && TryRemind(text, amb.nowMicros).Failed?
  {
    var lower := Strip(Lower(text));
    assert lower[1] == 'r';
    RemindNeverSets(text, amb.nowMicros);
  }

  /** Which branch a text takes, stated on its lowered, stripped form:
      `help` and `/help`, any `/remind` prefix, `/link` and `/unlink` only
      exactly, and `/join ` followed by a code. */
  lemma ClassifyIff(text: string)
    ensures var lower := Strip(Lower(text));
      && (Classify(text) == Help <==> lower == "/help" || lower == "help")
      && (Classify(text) == Remind <==> StartsWith(lower, "/remind"))
      && (Classify(text) == Link <==> lower == "/link")
      && (Classify(text).Join? <==> StartsWith(lower, "/join "))
      && (Classify(text) == Unlink <==> lower == "/unlink")
  {
    var lower := Strip(Lower(text));
    JoinUsageNeverArises(text);
    if StartsWith(lower, "/remind") {
      assert lower[1] == 'r';
    }
    if StartsWith(lower, "/join ") {
      assert lower[1] == 'j';
    }
  }

  /** `/join` followed by a space and a code, in any letter case, joins
      that code exactly as typed. */
  lemma JoinRoundTrip(p: string, code: string)
    requires |p| == 5 && Lower(p) == "/join"
    requires code != [] && Strip(code) == code
    ensures Classify(p + " " + code) == Join(code)
  {
    StrippedEnds(code);
    LowerOfJoin(p, code);
    ClassifyJoinPrefix(p + " " + code);
    SplitJoinText(p, code);
  }

  /** The two parts of `<p> <code>` for a five-character `p` that lowers to
      `/join` and a code that starts with a non-space character. */
  lemma SplitJoinText(p: string, code: string)
    requires |p| == 5 && Lower(p) == "/join"
    requires code != [] && !IsSpace(code[0])
    ensures Split(p + " " + code, 1) == [p, code]
  {
    assert NoSpace(p) by {
      LowerKeepsSpace(p);
      forall i | 0 <= i < 5 ensures !IsSpace(p[i]) {
        assert Lower(p)[i] == "/join"[i];
      }
    }
    assert p + " " + code == [] + p + (" " + code);
    SplitWord([], p, " " + code, 1);
    SplitRemainder(" ", code);
  }

  lemma LowerOfJoin(p: string, code: string)
    requires |p| == 5 && Lower(p) == "/join"
    requires code != [] && !IsSpace(code[|code| - 1])
    ensures StartsWith(Strip(Lower(p + " " + code)), "/join ")
  {
    var text := p + " " + code;
    var low := Lower(text);
    assert low[..6] == "/join " by {
      forall i | 0 <= i < 5 ensures low[i] == "/join"[i] {
        assert text[i] == p[i];
      }
    }
    assert !IsSpace(low[|low| - 1]) by {
      LowerKeepsSpace(text);
      assert text[|text| - 1] == code[|code| - 1];
    }
    StripOfTrimmed(low);
  }

  /** A text whose lowered, stripped form starts with `/join ` takes the
      `/join` branch. */
  lemma ClassifyJoinPrefix(text: string)
    requires StartsWith(Strip(Lower(text)), "/join ")
    ensures var parts := Split(text, 1);
      Classify(text) == if |parts| != 2 || Strip(parts[1]) == [] then JoinUsage else Join(Strip(parts[1]))
  {
    var lower := Strip(Lower(text));
    assert lower[1] == 'j';
  }

  /** The `Usage: /join <code>` reply is unreachable: a stripped text that
      starts with `/join ` goes on to a non-blank character, and the split
      of the original text finds it. */
  lemma JoinUsageNeverArises(text: string)
    ensures Classify(text) != JoinUsage
  {
    if StartsWith(Strip(Lower(text)), "/join ") {
      ClassifyJoinPrefix(text);
      var a, j := JoinShape(text);
      JoinHasCode(text, a, j);
    }
  }

  /** Where the pieces of a `/join ` command sit in the original text:
      whitespace before `a`, five non-space characters, a space, and a
      non-space character at `j` further on. */
  lemma JoinShape(text: string) returns (a: nat, j: nat)
    requires StartsWith(Strip(Lower(text)), "/join ")
    ensures a + 5 < j < |text|
    ensures AllSpace(text[..a]) && NoSpace(text[a..a + 5]) && IsSpace(text[a + 5]) && !IsSpace(text[j])
  {
    var low := Lower(text);
    a, j := StrippedJoinShape(low);
    LowerKeepsSpace(text);
    assert AllSpace(text[..a]) by {
      forall i | 0 <= i < a ensures IsSpace(text[i]) {
        assert low[..a][i] == low[i];
      }
    }
    assert NoSpace(text[a..a + 5]) by {
      forall i | a <= i < a + 5 ensures !IsSpace(text[i]) {
        assert low[a..a + 6][i - a] == low[i];
      }
    }
    assert low[a..a + 6][5] == low[a + 5];
  }

  /** Where the pieces of a `/join ` command sit in a text that strips to
      one: whitespace before `a`, then `/join `, then a non-space character
      at `j` further on. */
  lemma StrippedJoinShape(low: string) returns (a: nat, j: nat)
    requires StartsWith(Strip(low), "/join ")
    ensures a + 5 < j < |low|
    ensures AllSpace(low[..a]) && low[a..a + 6] == "/join " && !IsSpace(low[j])
  {
    LStripSuffix(low);
    var ls := LStrip(low);
    a := |low| - |ls|;
    var lower := RStrip(ls);
    assert lower[..6] == "/join ";
    assert lower[5] == ' ';
    j := a + |lower| - 1;
    assert low[j] == lower[|lower| - 1];
    assert low[a..a + 6] == lower[..6];
  }

  lemma JoinHasCode(text: string, a: nat, j: nat)
    requires a + 5 < j < |text|
    requires AllSpace(text[..a]) && NoSpace(text[a..a + 5]) && IsSpace(text[a + 5]) && !IsSpace(text[j])
    ensures |Split(text, 1)| == 2 && Strip(Split(text, 1)[1]) != []
  {
    var rest := text[a + 5..];
    assert text == text[..a] + text[a..a + 5] + rest;
    SplitWord(text[..a], text[a..a + 5], rest, 1);
    assert rest[j - a - 5] == text[j];
    LStripEmpty(rest);
    assert Split(rest, 0) == [LStrip(rest)];
    StripStartingWord(LStrip(rest));
  }

  // ---------------------------------------------------------------------
  // One pass of `start_telegram`

  datatype Message = Message(chatId: Option<int>, text: Option<string>)

  /** One element of `result`; a missing `update_id` or `message` is
      `None`. */
  datatype Update = Update(updateId: Option<int>, message: Option<Message>)

  datatype Outgoing = Outgoing(chatId: int, text: string)

  /** The bot's state: `_last_update_id`, the messages sent so far, and the
      `chat_links` table. */
  datatype BotState = BotState(last: Option<int>, outbox: seq<Outgoing>, links: map<string, string>)

  datatype StepResult = StepResult(state: BotState, abort: bool)

  /** The `params["offset"]` of the next `getUpdates`, if any. */
  function NextOffset(last: Option<int>): (o: Option<int>)
    ensures o.Some? <==> last.Some?
  {
    if last.Some? then Some(last.value + 1) else None
  }

  /** An update the loop passes over with `continue` before any command
      handling: no message, no chat id, or no non-blank text. */
  predicate Skipped(u: Update) {
    || u.message.None?
    || u.message.value.chatId.None?
    || u.message.value.text.None?
    || Strip(u.message.value.text.value) == []
  }

  /** A message with a chat and a text is skipped exactly when the text is
      blank: empty or all whitespace. */
  lemma SkippedIffBlank(u: Update)
    requires u.message.Some? && u.message.value.chatId.Some? && u.message.value.text.Some?
    ensures Skipped(u) <==> AllSpace(u.message.value.text.value)
  {
    var t := u.message.value.text.value;
    LStripEmpty(t);
    StripTrims(t);
  }

  /** The call `_build_prompt` makes: `query_memory(user_text,
      namespace=..., n_results=...)`. */
  function PromptCall(): PyCall.Call {
    PyCall.Call(1, ["namespace", "n_results"])
  }

  /** `query_memory` has no `namespace` parameter, so the call raises
      before the store is searched. */
  lemma PromptCallFails()
    ensures PyCall.Bind(Memory.QueryMemorySignature(), PromptCall())
      == PyCall.TypeError(QueryMemoryMessage)
  {
    var sig := Memory.QueryMemorySignature();
    assert PyCall.Names(sig.params) == ["query", "n_results"];
    assert "namespace"[1] != "n_results"[1];
    assert "namespace" !in PyCall.Names(sig.params);
  }

  /** The two `add_memory` calls after a reply would bind: they pass a
      document and a metadata dictionary. */
  lemma AddMemoryCallBinds()
    ensures PyCall.Bind(Memory.AddMemorySignature(), PyCall.Call(2, [])) == PyCall.Binds
  {
    var sig := Memory.AddMemorySignature();
    assert PyCall.Missing(sig.params, 2, []) == [];
  }

  /** One iteration of the `for update in ...` loop. The update id is
      recorded first; a handled command sends its reply; any other text
      resolves the namespace and calls `_build_prompt`, whose `TypeError`
      (see `PromptCallFails`) ends the pass. */
  function Deliver(s: BotState, u: Update, amb: Ambient): (r: StepResult)
    requires Sane(amb)
    ensures r.state.last == if u.updateId.Some? then u.updateId else s.last
  {
    var s1 := s.(last := if u.updateId.Some? then u.updateId else s.last);
    if Skipped(u) then StepResult(s1, false)
    else
      var chatId := u.message.value.chatId.value;
      match React(s1.links, chatId, Strip(u.message.value.text.value), amb)
      case Handled(links, reply) =>
        StepResult(s1.(links := links, outbox := s1.outbox + [Outgoing(chatId, reply)]), false)
      case Unhandled => StepResult(s1, PyCall.Bind(Memory.QueryMemorySignature(), PromptCall()).TypeError?)
  }

  /** Only a text that is not a command ends the pass, exactly when the
      `_build_prompt` call fails to bind, and then nothing is sent and no
      link changes. */
  lemma DeliverAborts(s: BotState, u: Update, amb: Ambient)
    requires Sane(amb)
    ensures var r := Deliver(s, u, amb);
      && (r.abort ==> !Skipped(u) && Classify(Strip(u.message.value.text.value)) == Other)
      && (r.abort ==> r.state.outbox == s.outbox && r.state.links == s.links)
      && (!Skipped(u) && Classify(Strip(u.message.value.text.value)) == Other ==>
            (r.abort <==> PyCall.Bind(Memory.QueryMemorySignature(), PromptCall()).TypeError?))
  {
  }

  predicate AllSane(env: seq<Ambient>) {
    forall i :: 0 <= i < |env| ==> Sane(env[i])
  }

  /** A whole pass over the fetched updates: the state after the last
      update, or after the one whose exception ended the pass. */
  function Drain(s: BotState, us: seq<Update>, env: seq<Ambient>): BotState
    requires |env| == |us| && AllSane(env)
    decreases |us|
  {
    if us == [] then s
    else
      var r := Deliver(s, us[0], env[0]);
      if r.abort then r.state else Drain(r.state, us[1..], env[1..])
  }

  /** How many updates a pass gets through, counting the one that ends it. */
  function Processed(s: BotState, us: seq<Update>, env: seq<Ambient>): (n: nat)
    requires |env| == |us| && AllSane(env)
    ensures n <= |us| && (us != [] ==> n >= 1)
    decreases |us|
  {
    if us == [] then 0
    else
      var r := Deliver(s, us[0], env[0]);
      if r.abort then 1 else 1 + Processed(r.state, us[1..], env[1..])
  }

  /** `_last_update_id` after the updates `us`: the last id among them, or
      the previous value if none has one. */
  function LastId(last: Option<int>, us: seq<Update>): Option<int>
    decreases |us|
  {
    if us == [] then last
    else LastId(if us[0].updateId.Some? then us[0].updateId else last, us[1..])
  }

  /** After a pass, `_last_update_id` is the last id among the updates it
      got through, skipped ones included. */
  lemma {:induction false} DrainLast(s: BotState, us: seq<Update>, env: seq<Ambient>)
    requires |env| == |us| && AllSane(env)
    ensures Drain(s, us, env).last == LastId(s.last, us[..Processed(s, us, env)])
    decreases |us|
  {
    if us != [] {
      var r := Deliver(s, us[0], env[0]);
      if r.abort {
        assert us[..1] == [us[0]];
      } else {
        DrainLast(r.state, us[1..], env[1..]);
        var n := Processed(r.state, us[1..], env[1..]);
        assert us[..1 + n] == [us[0]] + us[1..][..n];
        assert (us[..1 + n])[1..] == us[1..][..n];
      }
    }
  }

  /** Telegram numbers updates increasingly. */
  predicate IdsIncrease(us: seq<Update>) {
    && (forall k :: 0 <= k < |us| ==> us[k].updateId.Some?)
    && (forall i, j :: 0 <= i < j < |us| ==> us[i].updateId.value < us[j].updateId.value)
  }

  lemma {:induction false} LastIdOfIncreasing(last: Option<int>, us: seq<Update>)
    requires IdsIncrease(us) && us != []
    ensures LastId(last, us) == us[|us| - 1].updateId
    decreases |us|
  {
    if |us| > 1 {
      LastIdOfIncreasing(us[0].updateId, us[1..]);
    }
  }

  /** The offset rule: the next `getUpdates` asks for the ids after the
      last one the pass got through. Every update the pass got through is
      acknowledged (its id is below the offset, so it is never fetched
      again), and every update after the one whose exception ended the
      pass is fetched again (its id is at least the offset). */
  lemma OffsetSplitsBatch(s: BotState, us: seq<Update>, env: seq<Ambient>)
    requires |env| == |us| && AllSane(env)
    requires IdsIncrease(us) && us != []
    ensures var o := NextOffset(Drain(s, us, env).last);
      var p := Processed(s, us, env);
      && o.Some?
      && (forall k :: 0 <= k < p ==> us[k].updateId.value < o.value)
      && (forall k :: p <= k < |us| ==> us[k].updateId.value >= o.value)
  {
    var p := Processed(s, us, env);
    DrainLast(s, us, env);
    var done := us[..p];
    assert IdsIncrease(done);
    LastIdOfIncreasing(s.last, done);
    assert Drain(s, us, env).last == us[p - 1].updateId;
  }

  /** A batch in which every update is skipped only moves the offset. */
  lemma {:induction false} SkippedBatchOnlyAdvances(s: BotState, us: seq<Update>, env: seq<Ambient>)
    requires |env| == |us| && AllSane(env)
    requires forall k :: 0 <= k < |us| ==> Skipped(us[k])
    ensures Drain(s, us, env) == s.(last := LastId(s.last, us))
    ensures Processed(s, us, env) == |us|
    decreases |us|
  {
    if us != [] {
      var r := Deliver(s, us[0], env[0]);
      SkippedBatchOnlyAdvances(r.state, us[1..], env[1..]);
    }
  }

  /** A non-command text ends the pass with nothing sent and no link
      changed; only its update id is recorded. */
  lemma NonCommandEndsPass(s: BotState, u: Update, amb: Ambient)
    requires Sane(amb) && !Skipped(u)
    requires Classify(Strip(u.message.value.text.value)) == Other
    ensures Deliver(s, u, amb) == StepResult(s.(last := if u.updateId.Some? then u.updateId else s.last), true)
  {
    PromptCallFails();
  }

  // ---------------------------------------------------------------------
  // The bot as a stateful object

  class Bot {
    var lastUpdateId: Option<int>
    var outbox: seq<Outgoing>
    const links: Links.LinkStore

    constructor (store: Links.LinkStore)
      ensures lastUpdateId == None && outbox == [] && links == store
    {
      lastUpdateId := None;
      outbox := [];
      links := store;
    }

    function State(): BotState
      reads this, links
    {
      BotState(lastUpdateId, outbox, links.links)
    }

    /** `_handle_commands(chat_id, user_text)`. */
    method HandleCommands(chatId: int, userText: string, amb: Ambient) returns (handled: bool)
      requires Sane(amb)
      modifies this, links
      ensures lastUpdateId == old(lastUpdateId)
      ensures var r := React(old(links.links), chatId, userText, amb);
        && handled == r.Handled?
        && (r.Handled? ==> links.links == r.links && outbox == old(outbox) + [Outgoing(chatId, r.reply)])
        && (r.Unhandled? ==> links.links == old(links.links) && outbox == old(outbox))
    {
      match Classify(userText)
      case Help =>
        outbox := outbox + [Outgoing(chatId, HelpText)];
        handled := true;
      case Remind =>
        outbox := outbox + [Outgoing(chatId, RemindReply(userText, amb.nowMicros))];
        handled := true;
      case Link =>
        var code := links.CreateLink(chatId, amb.uuidHex);
        outbox := outbox + [Outgoing(chatId, LinkReply(code))];
        handled := true;
      case Join(code) =>
        links.JoinLink(chatId, code);
        outbox := outbox + [Outgoing(chatId, JoinReply(code))];
        handled := true;
      case JoinUsage =>
        outbox := outbox + [Outgoing(chatId, JoinUsageText)];
        handled := true;
      case Unlink =>
        links.Unlink(chatId);
        outbox := outbox + [Outgoing(chatId, UnlinkText)];
        handled := true;
      case Other =>
        handled := false;
    }

    /** The body of the `for update in ...` loop; `abort` is the exception
        that leaves it. */
    method ProcessUpdate(u: Update, amb: Ambient) returns (abort: bool)
      requires Sane(amb)
      modifies this, links
      ensures StepResult(State(), abort) == Deliver(old(State()), u, amb)
    {
      if u.updateId.Some? {
        lastUpdateId := u.updateId;
      }
      abort := false;
      if u.message.None? || u.message.value.chatId.None? || u.message.value.text.None? {
        return;
      }
      var chatId := u.message.value.chatId.value;
      var userText := Strip(u.message.value.text.value);
      if userText == [] {
        return;
      }
      var handled := HandleCommands(chatId, userText, amb);
      if !handled {
        // `get_namespace_for_chat` only reads; `_build_prompt` then raises.
        abort := PyCall.Bind(Memory.QueryMemorySignature(), PromptCall()).TypeError?;
      }
    }

    /** One iteration of `while True`: handle the fetched updates in order
        until one raises. */
    method PollStep(us: seq<Update>, env: seq<Ambient>)
      requires |env| == |us| && AllSane(env)
      modifies this, links
      ensures State() == Drain(old(State()), us, env)
    {
      var i := 0;
      while i < |us|
        invariant 0 <= i <= |us|
        invariant Drain(old(State()), us, env) == Drain(State(), us[i..], env[i..])
      {
        assert us[i..][0] == us[i] && env[i..][0] == env[i];
        assert us[i..][1..] == us[i + 1..] && env[i..][1..] == env[i + 1..];
        var abort := ProcessUpdate(us[i], env[i]);
        if abort {
          return;
        }
        i := i + 1;
      }
    }
  }
}
