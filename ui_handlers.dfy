/**
 * The dashboard's menu and dialog actions: starting a chat from a typed
 * phone number, renaming and deleting a contact from its context menu, the
 * connection status line, exporting the open chat as a text file, and
 * clearing the open chat's cached messages. The browser dialogs become
 * parameters (the typed text, the confirmation) and the clock a value.
 */
module UiHandlers {
  import opened Js
  import opened Messages
  import opened ServerState
  import opened ClientState

  // ---------------------------------------------------------------------
  // New chat
  // ---------------------------------------------------------------------

  /** `replace(/\D/g, '')`: the ASCII digits of the text, in order. */
  function DigitsOnly(s: string): (r: string)
    ensures AllDigits(r) && |r| <= |s|
    ensures AllDigits(s) ==> r == s
  {
    if s == [] then []
    else (if IsDigit(s[0]) then [s[0]] else []) + DigitsOnly(s[1..])
  }

  /** `replace(/^0+/, '')`. */
  function StripLeadingZeros(s: string): (r: string)
    ensures |r| <= |s| && r == s[|s| - |r|..]
    ensures r == [] || r[0] != '0'
    ensures forall i | 0 <= i < |s| - |r| :: s[i] == '0'
  {
    if s != [] && s[0] == '0' then StripLeadingZeros(s[1..]) else s
  }

  const CountryCode: string := "62"

  /** A digit string that does not start with the country code gets it, in place of any leading zeros. */
  function WithCountryCode(digits: string): (phone: string)
    ensures StartsWith(digits, CountryCode) ==> phone == digits
    ensures !StartsWith(digits, CountryCode) ==> phone == CountryCode + StripLeadingZeros(digits)
  {
    if StartsWith(digits, CountryCode) then digits else CountryCode + StripLeadingZeros(digits)
  }

  /** The phone number `confirmNewChat` derives from the typed text; None for a blank input. */
  function PhoneFromInput(input: string): (phone: Option<string>)
    ensures phone.None? <==> Trim(input) == ""
    ensures phone.Some? ==> phone.value == WithCountryCode(DigitsOnly(Trim(input)))
  {
    var t := Trim(input);
    if t == "" then None else Some(WithCountryCode(DigitsOnly(t)))
  }

  /** A suffix of a digit string is a digit string. */
  lemma DigitsSuffix(s: string, k: nat)
    requires AllDigits(s) && k <= |s|
    ensures AllDigits(s[k..])
  {
    assert forall i | 0 <= i < |s| - k :: s[k..][i] == s[k + i];
  }

  /** Joining two digit strings gives a digit string that starts with the first. */
  lemma DigitsJoin(a: string, b: string)
    requires AllDigits(a) && AllDigits(b)
    ensures AllDigits(a + b) && StartsWith(a + b, a)
  {
    assert forall i | 0 <= i < |a + b| :: (a + b)[i] == if i < |a| then a[i] else b[i - |a|];
    assert (a + b)[..|a|] == a;
  }

  /** Stripping leading zeros from a digit string leaves a digit string. */
  lemma StrippedDigits(digits: string)
    requires AllDigits(digits)
    ensures AllDigits(StripLeadingZeros(digits))
  {
    var rest := StripLeadingZeros(digits);
    DigitsSuffix(digits, |digits| - |rest|);
  }

  lemma CountryCodeIsDigits()
    ensures AllDigits(CountryCode)
  {
    assert CountryCode == ['6', '2'];
  }

  /** Adding the country code to a digit string gives a digit string that starts with it. */
  lemma WithCountryCodeShape(digits: string)
    requires AllDigits(digits)
    ensures AllDigits(WithCountryCode(digits)) && StartsWith(WithCountryCode(digits), CountryCode)
  {
    StrippedDigits(digits);
    CountryCodeIsDigits();
    DigitsJoin(CountryCode, StripLeadingZeros(digits));
  }

  /** Digits are not white space, so trimming a digit string keeps it whole. */
  lemma TrimKeepsDigits(s: string)
    requires AllDigits(s)
    ensures Trim(s) == s
  {
    assert forall i | 0 <= i < |s| :: !IsSpace(s[i]);
  }

  /**
   * A derived number is all digits and starts with the country code, and
   * deriving it again from itself gives it back.
   */
  lemma PhoneIsNormalForm(input: string)
    requires Trim(input) != ""
    ensures var phone := PhoneFromInput(input).value;
            && AllDigits(phone) && StartsWith(phone, CountryCode)
            && PhoneFromInput(phone) == Some(phone)
  {
    var phone := WithCountryCode(DigitsOnly(Trim(input)));
    WithCountryCodeShape(DigitsOnly(Trim(input)));
    TrimKeepsDigits(phone);
  }

  /** Leading zeros in front of a number that does not start with zero are all stripped. */
  lemma {:induction false} StripZerosBefore(zeros: nat, rest: string)
    requires rest == [] || rest[0] != '0'
    ensures StripLeadingZeros(Repeat('0', zeros) + rest) == rest
  {
    if zeros == 0 {
      assert Repeat('0', zeros) + rest == rest;
    } else {
      var s := Repeat('0', zeros) + rest;
      assert s[0] == '0';
      assert s[1..] == Repeat('0', zeros - 1) + rest;
      StripZerosBefore(zeros - 1, rest);
    }
  }

  /** A local number written with leading zeros loses them behind the country code. */
  lemma LocalNumberGetsCountryCode(zeros: nat, rest: string)
    requires rest == [] || rest[0] != '0'
    requires zeros > 0
    ensures WithCountryCode(Repeat('0', zeros) + rest) == CountryCode + rest
  {
    var digits := Repeat('0', zeros) + rest;
    assert digits[0] == '0';
    StripZerosBefore(zeros, rest);
  }

  const WhatsAppSuffix: string := "@s.whatsapp.net"

  /**
   * `confirmNewChat`: a blank input changes nothing; otherwise a fresh entry
   * named by the number replaces any cached one under `number@s.whatsapp.net`,
   * and that chat is opened.
   */
  method ConfirmNewChat(st: State, input: string, now: int) returns (jid: Option<string>)
    requires st.Valid()
    modifies st
    ensures st.Valid()
    ensures jid.None? <==> Trim(input) == ""
    ensures jid.None? ==> st.conversations == old(st.conversations) && st.currentJid == old(st.currentJid)
    ensures jid.Some? ==>
              var phone := PhoneFromInput(input).value;
              && jid.value == phone + WhatsAppSuffix
              && st.conversations == old(st.conversations)[jid.value := ClientConversation(jid.value, phone, now, Some([]), "", None)]
              && st.currentJid == jid
    ensures st.pausedChats == old(st.pausedChats) && st.contextMenuJid == old(st.contextMenuJid)
    ensures st.isSocketConnected == old(st.isSocketConnected)
    ensures st.searchResults == old(st.searchResults) && st.currentSearchIndex == old(st.currentSearchIndex)
    ensures st.searchQuery == old(st.searchQuery)
  {
    var phone := PhoneFromInput(input);
    if phone.None? {
      return None;
    }
    var j := phone.value + WhatsAppSuffix;
    st.UpdateConversation(j, ClientConversation(j, phone.value, now, Some([]), "", None));
    st.SetCurrentJid(Some(j));
    jid := Some(j);
  }

  // ---------------------------------------------------------------------
  // Context menu: rename and delete
  // ---------------------------------------------------------------------

  /**
   * `renameContact`: with a context-menu chat that is cached and a typed name
   * that is not blank, the chat takes the trimmed name; a cancelled or blank
   * prompt changes nothing.
   */
  method RenameContact(st: State, typed: Option<string>)
    requires st.Valid()
    modifies st
    ensures st.Valid()
    ensures var jid := old(st.contextMenuJid);
            if jid.Some? && jid.value in old(st.conversations) && typed.Some? && Trim(typed.value) != "" then
              st.conversations == old(st.conversations)[jid.value := old(st.conversations)[jid.value].(name := Trim(typed.value))]
            else st.conversations == old(st.conversations)
    ensures st.pausedChats == old(st.pausedChats) && ViewUnchanged(st)
  {
    if st.contextMenuJid.None? {
      return;
    }
    var jid := st.contextMenuJid.value;
    if typed.Some? && Trim(typed.value) != "" && jid in st.conversations {
      st.UpdateConversation(jid, st.conversations[jid].(name := Trim(typed.value)));
    }
  }

  /** A stored name is never blank and is already trimmed. */
  lemma RenamedNameIsTrimmed(typed: string)
    requires Trim(typed) != ""
    ensures Trim(Trim(typed)) == Trim(typed)
  {
    TrimmedIsFixed(Trim(typed));
  }

  /**
   * `deleteContact`: after confirmation the context-menu chat's entry is
   * removed, and the open chat is closed exactly when it was that one.
   */
  method DeleteContact(st: State, confirmed: bool)
    requires st.Valid()
    modifies st
    ensures st.Valid()
    ensures var jid := old(st.contextMenuJid);
            if jid.Some? && confirmed then
              && st.conversations == old(st.conversations) - {jid.value}
              && st.currentJid == (if old(st.currentJid) == jid then None else old(st.currentJid))
            else st.conversations == old(st.conversations) && st.currentJid == old(st.currentJid)
    ensures st.pausedChats == old(st.pausedChats) && st.contextMenuJid == old(st.contextMenuJid)
    ensures st.isSocketConnected == old(st.isSocketConnected)
    ensures st.searchResults == old(st.searchResults) && st.currentSearchIndex == old(st.currentSearchIndex)
    ensures st.searchQuery == old(st.searchQuery)
  {
    if st.contextMenuJid.None? || !confirmed {
      return;
    }
    var jid := st.contextMenuJid.value;
    st.DeleteConversation(jid);
    if st.currentJid == Some(jid) {
      st.SetCurrentJid(None);
    }
  }

  // ---------------------------------------------------------------------
  // Status line
  // ---------------------------------------------------------------------

  /** `(statusMap[status] || statusMap['close']).text`. */
  function ConnectionStatusText(status: string): (text: string)
    ensures status == "open" ==> text == "Connected"
    ensures status == "connecting" ==> text == "Connecting..."
    ensures status != "open" && status != "connecting" ==> text == "Disconnected"
  {
    if status == "open" then "Connected"
    else if status == "connecting" then "Connecting..."
    else "Disconnected"
  }

  /**
   * The relay broadcasts 'disconnected', 'waiting_for_scan' and 'connected',
   * none of which the status line knows: every one of them reads Disconnected.
   */
  lemma ServerStatusesReadDisconnected(s: ConnStatus)
    ensures ConnectionStatusText(StatusText(s)) == "Disconnected"
  {
    assert StatusText(s)[0] != 'o' || |StatusText(s)| != 4;
  }

  // ---------------------------------------------------------------------
  // Export
  // ---------------------------------------------------------------------

  predicate IsAsciiAlnum(c: char) {
    ('a' <= c <= 'z') || ('A' <= c <= 'Z') || ('0' <= c <= '9')
  }

  /**
   * What one character becomes: itself when it is an ASCII letter or digit,
   * else one underscore per UTF-16 code unit, since the pattern has no `u`
   * flag and so matches each half of a surrogate pair on its own.
   */
  function SafeChar(c: char): string {
    if IsAsciiAlnum(c) then [c] else if c as int > 0xFFFF then "__" else "_"
  }

  predicate IsSafeName(s: string) {
    forall i | 0 <= i < |s| :: IsAsciiAlnum(s[i]) || s[i] == '_'
  }

  /** `replaceAll(/[^a-zA-Z0-9]/g, '_')`. */
  function SafeFileName(s: string): (r: string)
    ensures |r| == Utf16Length(s)
    ensures IsSafeName(r)
    ensures (forall i | 0 <= i < |s| :: s[i] as int <= 0xFFFF) ==>
              |r| == |s| && forall i | 0 <= i < |s| :: r[i] == (if IsAsciiAlnum(s[i]) then s[i] else '_')
    decreases |s|
  {
    if s == [] then [] else SafeChar(s[0]) + SafeFileName(s[1..])
  }

  /** Replacing in a concatenation is replacing in each part: the name is made safe character by character. */
  lemma {:induction false} SafeFileNameConcat(a: string, b: string)
    ensures SafeFileName(a + b) == SafeFileName(a) + SafeFileName(b)
    decreases |a|
  {
    if a == [] {
      assert a + b == b;
    } else {
      assert (a + b)[1..] == a[1..] + b;
      SafeFileNameConcat(a[1..], b);
    }
  }

  /** A name that is already safe is left as it is. */
  lemma {:induction false} SafeNameUnchanged(s: string)
    requires IsSafeName(s)
    ensures SafeFileName(s) == s
    decreases |s|
  {
    if s != [] {
      assert IsSafeName(s[1..]);
      SafeNameUnchanged(s[1..]);
    }
  }

  /** An input of ideographic spaces alone is blank: `trim` removes every Unicode space, so it is rejected. */
  lemma IdeographicSpacesAreBlank(n: nat)
    ensures PhoneFromInput(seq(n, _ => '\U{3000}')) == None
  {
    var s := seq(n, _ => '\U{3000}');
    assert forall i :: 0 <= i < |s| ==> IsSpace(s[i]);
  }

  /** A character outside the Basic Multilingual Plane, an emoji say, becomes two underscores. */
  lemma AstralCharBecomesTwoUnderscores(a: string, c: char, b: string)
    requires c as int > 0xFFFF
    ensures SafeFileName(a + [c] + b) == SafeFileName(a) + "__" + SafeFileName(b)
  {
    assert [c][1..] == [];
    assert SafeFileName([c]) == "__";
    SafeFileNameConcat(a + [c], b);
    SafeFileNameConcat(a, [c]);
  }

  /** A safe name has only letters, digits and underscores, so making it safe again changes nothing. */
  lemma SafeFileNameIsSafe(s: string)
    ensures forall i | 0 <= i < |SafeFileName(s)| :: IsAsciiAlnum(SafeFileName(s)[i]) || SafeFileName(s)[i] == '_'
    ensures SafeFileName(SafeFileName(s)) == SafeFileName(s)
  {
    SafeNameUnchanged(SafeFileName(s));
  }

  /** The export's title: the contact's name, else its jid. */
  function ExportTitle(name: string, jid: string): (title: string)
    ensures name != "" ==> title == name
    ensures name == "" ==> title == jid
  {
    OrElse(name, jid)
  }

  /** `chat-<safe title>.txt`. */
  function ExportFileName(title: string): (file: string)
    ensures |file| == Utf16Length(title) + 9
    ensures StartsWith(file, "chat-") && file[|file| - 4..] == ".txt"
    ensures IsSafeName(file[5..|file| - 4])
  {
    "chat-" + SafeFileName(title) + ".txt"
  }

  /** Who a line is from: 'You' for own messages, else the name or 'Them'. */
  function Sender(m: Message, name: string): (who: string)
    ensures m.fromMe ==> who == "You"
    ensures !m.fromMe && name != "" ==> who == name
    ensures !m.fromMe && name == "" ==> who == "Them"
  {
    if m.fromMe then "You" else OrElse(name, "Them")
  }

  /** `[time] sender: text`, with '[Media]' for a message without text. */
  function ExportLine(m: Message, name: string, formatTime: int -> string): (line: string)
    ensures |line| >= 6 + |OrElse(m.text, "[Media]")|
    ensures line[0] == '[' && line[|line| - 1] == '\n'
    ensures m.text != "" ==> line[|line| - 1 - |m.text|..|line| - 1] == m.text
    ensures m.text == "" ==> line[|line| - 8..|line| - 1] == "[Media]"
  {
    "[" + formatTime(m.timestamp) + "] " + Sender(m, name) + ": " + OrElse(m.text, "[Media]") + "\n"
  }

  const RuleWidth: nat := 50

  function ExportHeader(title: string, exportedAt: string): (header: string)
    ensures StartsWith(header, "Chat with " + title + "\n")
    ensures |header| >= RuleWidth + 2 && header[|header| - RuleWidth - 2..] == Repeat('=', RuleWidth) + "\n\n"
  {
    "Chat with " + title + "\n" + "Exported: " + exportedAt + "\n" + Repeat('=', RuleWidth) + "\n\n"
  }

  /** The strings of a list, one after the other. */
  function Flatten<T>(parts: seq<seq<T>>): seq<T>
    decreases |parts|
  {
    if parts == [] then [] else Flatten(parts[..|parts| - 1]) + parts[|parts| - 1]
  }

  /** Flattening two lists of parts is flattening each, one after the other. */
  lemma {:induction false} FlattenConcat<T>(a: seq<seq<T>>, b: seq<seq<T>>)
    ensures Flatten(a + b) == Flatten(a) + Flatten(b)
    decreases |b|
  {
    if b == [] {
      assert a + b == a;
    } else {
      var ab := a + b;
      assert ab[..|ab| - 1] == a + b[..|b| - 1];
      assert ab[|ab| - 1] == b[|b| - 1];
      FlattenConcat(a, b[..|b| - 1]);
      ConcatAssoc(Flatten(a), Flatten(b[..|b| - 1]), b[|b| - 1]);
    }
  }

  /** The export line of each message, in message order. */
  function ExportLines(msgs: seq<Message>, name: string, formatTime: int -> string): (lines: seq<string>)
    ensures |lines| == |msgs|
    ensures forall i | 0 <= i < |msgs| :: lines[i] == ExportLine(msgs[i], name, formatTime)
  {
    seq(|msgs|, i requires 0 <= i < |msgs| => ExportLine(msgs[i], name, formatTime))
  }

  /** The body for two runs of messages is the body of the first, then that of the second. */
  lemma ExportBodyConcat(a: seq<Message>, b: seq<Message>, name: string, formatTime: int -> string)
    ensures ExportLines(a + b, name, formatTime) == ExportLines(a, name, formatTime) + ExportLines(b, name, formatTime)
    ensures Flatten(ExportLines(a + b, name, formatTime))
            == Flatten(ExportLines(a, name, formatTime)) + Flatten(ExportLines(b, name, formatTime))
  {
    var la := ExportLines(a, name, formatTime);
    var lb := ExportLines(b, name, formatTime);
    assert ExportLines(a + b, name, formatTime) == la + lb;
    FlattenConcat(la, lb);
  }

  datatype ExportResult = NoChatOpen | NothingToExport | Exported(fileName: string, content: string)

  /**
   * `exportChat`: with a chat open whose cache holds messages, the file is
   * named after the chat's title with unsafe characters replaced, and holds
   * the header followed by one line per message. Nothing is changed.
   */
  method ExportChat(st: State, exportedAt: string, formatTime: int -> string) returns (r: ExportResult)
    ensures st.currentJid.None? <==> r == NoChatOpen
    ensures r == NothingToExport <==>
              st.currentJid.Some? &&
              (st.currentJid.value !in st.conversations || st.conversations[st.currentJid.value].messages.None?
               || st.conversations[st.currentJid.value].messages.value == [])
    ensures r.Exported? ==>
              var c := st.conversations[st.currentJid.value];
              var title := ExportTitle(c.name, st.currentJid.value);
              && r.fileName == ExportFileName(title)
              && r.content == ExportHeader(title, exportedAt) + Flatten(ExportLines(c.messages.value, c.name, formatTime))
  {
    if st.currentJid.None? {
      return NoChatOpen;
    }
    var jid := st.currentJid.value;
    if jid !in st.conversations || st.conversations[jid].messages.None? || st.conversations[jid].messages.value == [] {
      return NothingToExport;
    }
    var c := st.conversations[jid];
    var msgs := c.messages.value;
    var title := ExportTitle(c.name, jid);
    var content := AppendLines(ExportHeader(title, exportedAt), msgs, c.name, formatTime);
    r := Exported(ExportFileName(title), content);
  }

  /** The export loop: each message's line is appended to the text so far. */
  method AppendLines(header: string, msgs: seq<Message>, name: string, formatTime: int -> string) returns (content: string)
    ensures content == header + Flatten(ExportLines(msgs, name, formatTime))
  {
    ghost var lines := ExportLines(msgs, name, formatTime);
    content := header;
    for i := 0 to |msgs|
      invariant content == header + Flatten(lines[..i])
    {
      var line := ExportLine(msgs[i], name, formatTime);
      assert lines[..i + 1][..i] == lines[..i] && lines[i] == line;
      ConcatAssoc(header, Flatten(lines[..i]), line);
      content := content + line;
    }
    assert lines[..|msgs|] == lines;
  }

  /** An own message without text is exported as a line from 'You' showing '[Media]'. */
  lemma OwnMediaLine(m: Message, name: string, formatTime: int -> string)
    requires m.fromMe && m.text == ""
    ensures ExportLine(m, name, formatTime) == "[" + formatTime(m.timestamp) + "] You: [Media]\n"
  {
  }

  // ---------------------------------------------------------------------
  // Clear chat
  // ---------------------------------------------------------------------

  /** `clearChat`: after confirmation the open chat's cached messages become empty; nothing else changes. */
  method ClearChat(st: State, confirmed: bool)
    requires st.Valid()
    modifies st
    ensures st.Valid()
    ensures var jid := old(st.currentJid);
            if jid.Some? && confirmed && jid.value in old(st.conversations) then
              st.conversations == old(st.conversations)[jid.value := old(st.conversations)[jid.value].(messages := Some([]))]
            else st.conversations == old(st.conversations)
    ensures st.pausedChats == old(st.pausedChats) && ViewUnchanged(st)
  {
    if st.currentJid.None? || !confirmed {
      return;
    }
    var jid := st.currentJid.value;
    if jid in st.conversations {
      st.UpdateConversation(jid, st.conversations[jid].(messages := Some([])));
    }
  }
}
