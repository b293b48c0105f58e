/**
 * The legacy single-file server: the same connection machine and pause set
 * as the modular server, but no conversation store, a prompt without
 * history, no fallback reply on errors, a settings handler that writes a
 * three-line `.env` file, and a toggle that persists nothing.
 *
 * Its module-level variables (`sock`, `status`, `qrCodeData`,
 * `currentConfig`, `pausedChats`) are the fields of `LegacyServer`.
 */
module Legacy {
  import opened Js
  import opened Ai
  import opened Config
  import opened ServerState
  import WhatsApp
  import Routes

  class LegacyServer {
    var sockPresent: bool
    var currentConfig: AiConfig
    var qrCodeData: Option<string>
    var status: ConnStatus
    var pausedChats: set<string>
    /** Every broadcast so far, oldest first. */
    var emitted: seq<Event>
    /** Every `.env` write so far, oldest first. */
    var envWrites: seq<string>

    /** The server at start-up: configuration from the environment, no socket yet. */
    constructor (env: Env)
      ensures currentConfig == InitialConfig(env)
      ensures !sockPresent && qrCodeData == None && status == Disconnected
      ensures pausedChats == {} && emitted == [] && envWrites == []
    {
      sockPresent := false;
      currentConfig := InitialConfig(env);
      qrCodeData := None;
      status := Disconnected;
      pausedChats := {};
      emitted := [];
      envWrites := [];
    }
  }

  /** The initial `currentConfig`: the environment, with defaults for the URL and the model. */
  function InitialConfig(env: Env): AiConfig {
    AiConfig(env.apiKey, Or(env.baseUrl, Some(DefaultBaseUrl)), Or(env.modelName, Some(DefaultModelName)), Some(DefaultSystemPrompt))
  }

  /**
   * The legacy start-up configuration is what the modular server's
   * `initConfig` gives when no config.json was saved.
   */
  lemma InitialConfigIsInitWithoutFile(env: Env)
    ensures InitialConfig(env) == InitConfig(None, env)
    ensures InitialConfig(env).systemPrompt == Some(DefaultSystemPrompt)
  {
  }

  /** `sock = makeWASocket(...)`: from here on a socket exists. */
  method ConnectToWhatsApp(srv: LegacyServer)
    modifies srv
    ensures srv.sockPresent
    ensures srv.currentConfig == old(srv.currentConfig) && srv.qrCodeData == old(srv.qrCodeData) && srv.status == old(srv.status)
    ensures srv.pausedChats == old(srv.pausedChats) && srv.emitted == old(srv.emitted) && srv.envWrites == old(srv.envWrites)
  {
    srv.sockPresent := true;
  }

  // ---------------------------------------------------------------------
  // connection.update
  // ---------------------------------------------------------------------

  /** How the listener ended: by throwing, or normally with its reconnect decision. */
  datatype ConnOutcome = ListenerThrew | Finished(reconnect: bool)

  /** The same update without its `connection` field: only the QR step applies. */
  function QrPart(u: WhatsApp.ConnUpdate): WhatsApp.ConnUpdate {
    u.(connection := None)
  }

  /**
   * The legacy `connection.update` listener. It reads `lastDisconnect.error`
   * without optional chaining, so a close without `lastDisconnect` throws
   * after the QR step and before the status changes; every other update
   * behaves exactly as the modular listener.
   */
  method LegacyConnectionUpdate(srv: LegacyServer, u: WhatsApp.ConnUpdate) returns (outcome: ConnOutcome)
    modifies srv
    ensures u.connection == Some(WhatsApp.Close) && u.lastDisconnect.None? ==>
              && outcome == ListenerThrew
              && WhatsApp.Link(srv.status, srv.qrCodeData) == WhatsApp.AfterUpdate(WhatsApp.Link(old(srv.status), old(srv.qrCodeData)), QrPart(u))
              && srv.emitted == old(srv.emitted) + WhatsApp.UpdateEvents(QrPart(u))
    ensures !(u.connection == Some(WhatsApp.Close) && u.lastDisconnect.None?) ==>
              && outcome == Finished(u.connection == Some(WhatsApp.Close) && WhatsApp.ShouldReconnect(u.lastDisconnect))
              && WhatsApp.Link(srv.status, srv.qrCodeData) == WhatsApp.AfterUpdate(WhatsApp.Link(old(srv.status), old(srv.qrCodeData)), u)
              && srv.emitted == old(srv.emitted) + WhatsApp.UpdateEvents(u)
    ensures srv.sockPresent == old(srv.sockPresent) && srv.currentConfig == old(srv.currentConfig)
    ensures srv.pausedChats == old(srv.pausedChats) && srv.envWrites == old(srv.envWrites)
  {
    if u.qr.Some? && u.qr.value != [] {
      srv.qrCodeData := u.qr;
      srv.emitted := srv.emitted + [QrEvent(u.qr)];
      srv.status := WaitingForScan;
      srv.emitted := srv.emitted + [StatusEvent(WaitingForScan)];
    }
    if u.connection == Some(WhatsApp.Close) {
      if u.lastDisconnect.None? {
        return ListenerThrew;
      }
      var reconnect := WhatsApp.ShouldReconnect(u.lastDisconnect);
      srv.status := Disconnected;
      srv.emitted := srv.emitted + [StatusEvent(Disconnected)];
      return Finished(reconnect);
    } else if u.connection == Some(WhatsApp.Open) {
      srv.status := Connected;
      srv.qrCodeData := None;
      srv.emitted := srv.emitted + [StatusEvent(Connected), QrEvent(None)];
    }
    outcome := Finished(false);
  }

  /**
   * A close that carries no `lastDisconnect` leaves the legacy server in its
   * previous status without reconnecting, where the modular server marks it
   * disconnected and reconnects.
   */
  lemma CloseWithoutReasonIsLost(s: WhatsApp.Link, u: WhatsApp.ConnUpdate)
    requires u.connection == Some(WhatsApp.Close) && u.lastDisconnect.None? && !Truthy(u.qr)
    ensures WhatsApp.AfterUpdate(s, QrPart(u)) == s
    ensures WhatsApp.UpdateEvents(QrPart(u)) == []
    ensures WhatsApp.AfterUpdate(s, u).status == Disconnected && WhatsApp.ShouldReconnect(u.lastDisconnect)
  {
  }

  // ---------------------------------------------------------------------
  // messages.upsert
  // ---------------------------------------------------------------------

  /** How the handling of one message ended. */
  datatype LegacyHandled =
    | Ignored
    | Paused
    | Failed(error: string)
    | Replied(prompt: seq<WhatsApp.Turn>, reply: Option<string>)

  datatype LegacyStep = LegacyStep(events: seq<Event>, handled: LegacyHandled)

  /** `[system, user]`: the legacy prompt is the modular prompt over an empty history. */
  function LegacyPrompt(systemPrompt: Option<string>, text: string): (p: seq<WhatsApp.Turn>)
    ensures p == WhatsApp.Prompt(systemPrompt, [], text)
    ensures |p| == 2
  {
    assert WhatsApp.History([]) == [];
    [WhatsApp.Turn(WhatsApp.System, systemPrompt), WhatsApp.Turn(WhatsApp.User, Some(text))]
  }

  /**
   * What the legacy loop body does with one message, given the pause set and
   * the system prompt: nothing is stored, and any error thrown between the
   * composing update and the closing presence update is only logged.
   */
  function LegacyRelay(paused: set<string>, systemPrompt: Option<string>, d: WhatsApp.Delivery): (r: LegacyStep)
    ensures r.events != [] && r.events[0] == MsgLogIn(d.msg)
    ensures r.handled.Ignored? <==> WhatsApp.Skipped(d.msg)
    ensures r.handled.Paused? <==> !WhatsApp.Skipped(d.msg) && d.msg.key.remoteJid in paused
  {
    if WhatsApp.Skipped(d.msg) then LegacyStep([MsgLogIn(d.msg)], Ignored)
    else
      var jid := d.msg.key.remoteJid;
      if jid in paused then LegacyStep([MsgLogIn(d.msg), LogEvent(WhatsApp.SkippedLog(jid))], Paused)
      else
        var rest := LegacyAnswer(jid, systemPrompt, WhatsApp.ExtractText(d.msg.message.value), d);
        LegacyStep([MsgLogIn(d.msg)] + rest.events, rest.handled)
  }

  /** The `try` block: composing update, completion, outgoing log, send, closing update. */
  function LegacyAnswer(jid: string, systemPrompt: Option<string>, text: string, d: WhatsApp.Delivery): (r: LegacyStep)
    ensures r.handled.Failed? || r.handled.Replied?
    ensures r.events != []
    ensures r.handled.Failed? ==> r.events[|r.events| - 1] == LogEvent(WhatsApp.ErrorLog(r.handled.error))
    ensures r.handled.Replied? ==> r.handled.prompt == LegacyPrompt(systemPrompt, text)
    ensures r.handled.Replied? <==> d.transport.composing.Ok? && d.outcome.Answered? && |d.outcome.choices| > 0 && WhatsApp.AfterAi(d.transport).Ok?
  {
    if d.transport.composing.Fail? then Caught(d.transport.composing.message)
    else
      match d.outcome
      case Threw(err) => Caught(err.message)
      case ClientThrew(message) => Caught(message)
      case Answered(choices) =>
        if |choices| == 0 then Caught(NoChoiceMessage)
        else
          var out := if choices[0].Some? then MsgLogOut(jid, choices[0].value, false) else MsgLogOutNull(jid);
          var last := WhatsApp.AfterAi(d.transport);
          if last.Fail? then LegacyStep([out, LogEvent(WhatsApp.ErrorLog(last.message))], Failed(last.message))
          else LegacyStep([out], Replied(LegacyPrompt(systemPrompt, text), choices[0]))
  }

  /** The `catch` block: the error is logged and the message gets no reply. */
  function Caught(message: string): LegacyStep {
    LegacyStep([LogEvent(WhatsApp.ErrorLog(message))], Failed(message))
  }

  /** A message to a paused chat is only logged and skipped: nothing is asked or sent. */
  lemma LegacyPausedChatSkipped(paused: set<string>, systemPrompt: Option<string>, d: WhatsApp.Delivery)
    requires !WhatsApp.Skipped(d.msg) && d.msg.key.remoteJid in paused
    ensures LegacyRelay(paused, systemPrompt, d) == LegacyStep([MsgLogIn(d.msg), LogEvent(WhatsApp.SkippedLog(d.msg.key.remoteJid))], Paused)
  {
  }

  /**
   * Skipped messages are only logged, as in the modular server; the others
   * either get a reply asked with the two-turn prompt or end in a logged
   * error, and a failed completion sends no fallback text.
   */
  lemma LegacyRelayOutcomes(paused: set<string>, systemPrompt: Option<string>, d: WhatsApp.Delivery)
    ensures var r := LegacyRelay(paused, systemPrompt, d);
            && (r.handled.Ignored? <==> WhatsApp.Skipped(d.msg))
            && (WhatsApp.Skipped(d.msg) ==> r.events == [MsgLogIn(d.msg)])
            && (r.handled.Replied? ==> r.handled.prompt == LegacyPrompt(systemPrompt, WhatsApp.ExtractText(d.msg.message.value)))
            && (r.handled.Failed? ==> r.events[|r.events| - 1] == LogEvent(WhatsApp.ErrorLog(r.handled.error)))
            && (!WhatsApp.Skipped(d.msg) && d.msg.key.remoteJid !in paused && d.transport.composing.Ok? && d.outcome.Threw? ==>
                  r == LegacyStep([MsgLogIn(d.msg), LogEvent(WhatsApp.ErrorLog(d.outcome.err.message))], Failed(d.outcome.err.message)))
            && (!WhatsApp.Skipped(d.msg) && d.msg.key.remoteJid !in paused && d.transport.composing.Ok? && d.outcome.ClientThrew? ==>
                  r == LegacyStep([MsgLogIn(d.msg), LogEvent(WhatsApp.ErrorLog(d.outcome.message))], Failed(d.outcome.message)))
  {
  }

  /** The legacy loop body for one message. */
  method LegacyHandleMessage(srv: LegacyServer, d: WhatsApp.Delivery) returns (handled: LegacyHandled)
    modifies srv
    ensures var r := LegacyRelay(old(srv.pausedChats), old(srv.currentConfig.systemPrompt), d);
            srv.emitted == old(srv.emitted) + r.events && handled == r.handled
    ensures srv.sockPresent == old(srv.sockPresent) && srv.currentConfig == old(srv.currentConfig)
    ensures srv.qrCodeData == old(srv.qrCodeData) && srv.status == old(srv.status)
    ensures srv.pausedChats == old(srv.pausedChats) && srv.envWrites == old(srv.envWrites)
  {
    var jid := d.msg.key.remoteJid;
    srv.emitted := srv.emitted + [MsgLogIn(d.msg)];
    if d.msg.message.None? || d.msg.key.fromMe {
      return Ignored;
    }
    var text := WhatsApp.ExtractText(d.msg.message.value);
    if text == [] {
      return Ignored;
    }
    if jid in srv.pausedChats {
      srv.emitted := srv.emitted + [LogEvent(WhatsApp.SkippedLog(jid))];
      return Paused;
    }
    ghost var logged := srv.emitted;
    ghost var rest := LegacyAnswer(jid, srv.currentConfig.systemPrompt, text, d);
    handled := LegacyTry(srv, jid, text, d);
    ConcatAssoc(old(srv.emitted), [MsgLogIn(d.msg)], rest.events);
  }

  /** The `try`/`catch` block of the legacy loop body. */
  method LegacyTry(srv: LegacyServer, jid: string, text: string, d: WhatsApp.Delivery) returns (handled: LegacyHandled)
    modifies srv
    ensures var r := LegacyAnswer(jid, old(srv.currentConfig.systemPrompt), text, d);
            srv.emitted == old(srv.emitted) + r.events && handled == r.handled
    ensures srv.sockPresent == old(srv.sockPresent) && srv.currentConfig == old(srv.currentConfig)
    ensures srv.qrCodeData == old(srv.qrCodeData) && srv.status == old(srv.status)
    ensures srv.pausedChats == old(srv.pausedChats) && srv.envWrites == old(srv.envWrites)
  {
    var error: string;
    if d.transport.composing.Fail? {
      error := d.transport.composing.message;
    } else if d.outcome.Threw? {
      error := d.outcome.err.message;
    } else if d.outcome.ClientThrew? {
      error := d.outcome.message;
    } else if |d.outcome.choices| == 0 {
      error := NoChoiceMessage;
    } else {
      var reply := d.outcome.choices[0];
      var out := if reply.Some? then MsgLogOut(jid, reply.value, false) else MsgLogOutNull(jid);
      srv.emitted := srv.emitted + [out];
      var last := WhatsApp.AfterAi(d.transport);
      if last.Ok? {
        return Replied([WhatsApp.Turn(WhatsApp.System, srv.currentConfig.systemPrompt), WhatsApp.Turn(WhatsApp.User, Some(text))], reply);
      }
      error := last.message;
      ConcatAssoc(old(srv.emitted), [out], [LogEvent(WhatsApp.ErrorLog(error))]);
    }
    srv.emitted := srv.emitted + [LogEvent(WhatsApp.ErrorLog(error))];
    handled := Failed(error);
  }

  /** The legacy loop over a batch, message by message. */
  function LegacyRelayAll(paused: set<string>, systemPrompt: Option<string>, ds: seq<WhatsApp.Delivery>): (events: seq<Event>)
    ensures |events| >= |ds|
    decreases |ds|
  {
    if ds == [] then []
    else LegacyRelayAll(paused, systemPrompt, ds[..|ds| - 1]) + LegacyRelay(paused, systemPrompt, ds[|ds| - 1]).events
  }

  /** Every message of a batch is logged as received, first among its own events. */
  lemma {:induction false} LegacyBatchLogsEachMessage(paused: set<string>, systemPrompt: Option<string>, ds: seq<WhatsApp.Delivery>)
    ensures |LegacyRelayAll(paused, systemPrompt, ds)| >= |ds|
    ensures forall k | 0 <= k < |ds| :: MsgLogIn(ds[k].msg) in LegacyRelayAll(paused, systemPrompt, ds)
    decreases |ds|
  {
    if ds != [] {
      var init := ds[..|ds| - 1];
      var before := LegacyRelayAll(paused, systemPrompt, init);
      var r := LegacyRelay(paused, systemPrompt, ds[|ds| - 1]);
      LegacyBatchLogsEachMessage(paused, systemPrompt, init);
      assert r.events[0] == MsgLogIn(ds[|ds| - 1].msg);
      forall k | 0 <= k < |ds|
        ensures MsgLogIn(ds[k].msg) in before + r.events
      {
        if k < |ds| - 1 {
          assert ds[k] == init[k];
        } else {
          assert (before + r.events)[|before|] == r.events[0];
        }
      }
    }
  }

  /** The legacy `messages.upsert` listener. */
  method LegacyHandleUpsert(srv: LegacyServer, batchType: string, ds: seq<WhatsApp.Delivery>)
    modifies srv
    ensures batchType != "notify" ==> srv.emitted == old(srv.emitted)
    ensures batchType == "notify" ==> srv.emitted == old(srv.emitted) + LegacyRelayAll(old(srv.pausedChats), old(srv.currentConfig.systemPrompt), ds)
    ensures srv.sockPresent == old(srv.sockPresent) && srv.currentConfig == old(srv.currentConfig)
    ensures srv.qrCodeData == old(srv.qrCodeData) && srv.status == old(srv.status)
    ensures srv.pausedChats == old(srv.pausedChats) && srv.envWrites == old(srv.envWrites)
  {
    if batchType != "notify" {
      return;
    }
    ghost var emitted0 := srv.emitted;
    for i := 0 to |ds|
      invariant srv.emitted == emitted0 + LegacyRelayAll(srv.pausedChats, srv.currentConfig.systemPrompt, ds[..i])
      invariant srv.sockPresent == old(srv.sockPresent) && srv.currentConfig == old(srv.currentConfig)
      invariant srv.qrCodeData == old(srv.qrCodeData) && srv.status == old(srv.status)
      invariant srv.pausedChats == old(srv.pausedChats) && srv.envWrites == old(srv.envWrites)
    {
      assert ds[..i + 1][..i] == ds[..i];
      ghost var before := LegacyRelayAll(srv.pausedChats, srv.currentConfig.systemPrompt, ds[..i]);
      var _ := LegacyHandleMessage(srv, ds[i]);
      ConcatAssoc(emitted0, before, LegacyRelay(srv.pausedChats, srv.currentConfig.systemPrompt, ds[i]).events);
    }
    assert ds[..|ds|] == ds;
  }

  // ---------------------------------------------------------------------
  // POST /api/settings
  // ---------------------------------------------------------------------

  /** A template-literal interpolation: an undefined field is written as `undefined`. */
  function Interpolated(v: Option<string>): string {
    if v.Some? then v.value else "undefined"
  }

  /** The `.env` text: three lines, and the system prompt is not among them. */
  function EnvContent(apiKey: Option<string>, baseUrl: Option<string>, modelName: Option<string>): string {
    "API_KEY=" + Interpolated(apiKey) + "\n" + "BASE_URL=" + Interpolated(baseUrl) + "\n" + "MODEL_NAME=" + Interpolated(modelName)
  }

  /** The lines of a text, as `split('\n')`. */
  function Lines(s: string): (r: seq<string>)
    ensures |r| >= 1
    decreases |s|
  {
    var head := BeforeFirst(s, '\n');
    if |head| == |s| then [s] else [head] + Lines(s[|head| + 1..])
  }

  /** Splitting a text whose first line has no line break. */
  lemma LinesCons(a: string, b: string)
    requires '\n' !in a
    ensures Lines(a + "\n" + b) == [a] + Lines(b)
  {
    var s := a + "\n" + b;
    BeforeFirstConcat(a, '\n', b);
    assert s[|a| + 1..] == b;
  }

  /** Three lines without line breaks, joined by line breaks, split back into the same three lines. */
  lemma LinesOfThree(x: string, y: string, z: string)
    requires '\n' !in x && '\n' !in y && '\n' !in z
    ensures Lines(x + "\n" + (y + "\n" + z)) == [x, y, z]
  {
    LinesCons(x, y + "\n" + z);
    LinesCons(y, z);
    BeforeFirstAbsent(z, '\n');
  }

  /**
   * When no submitted value holds a line break, the `.env` file has exactly
   * three lines: the API key, the base URL and the model name.
   */
  lemma EnvContentHasThreeLines(apiKey: Option<string>, baseUrl: Option<string>, modelName: Option<string>)
    requires '\n' !in Interpolated(apiKey) && '\n' !in Interpolated(baseUrl) && '\n' !in Interpolated(modelName)
    ensures Lines(EnvContent(apiKey, baseUrl, modelName)) ==
              ["API_KEY=" + Interpolated(apiKey), "BASE_URL=" + Interpolated(baseUrl), "MODEL_NAME=" + Interpolated(modelName)]
  {
    var l1 := "API_KEY=" + Interpolated(apiKey);
    var l2 := "BASE_URL=" + Interpolated(baseUrl);
    var l3 := "MODEL_NAME=" + Interpolated(modelName);
    EnvLinesHaveNoBreak(apiKey, baseUrl, modelName);
    EnvContentJoined(apiKey, baseUrl, modelName);
    LinesOfThree(l1, l2, l3);
  }

  lemma EnvLinesHaveNoBreak(apiKey: Option<string>, baseUrl: Option<string>, modelName: Option<string>)
    requires '\n' !in Interpolated(apiKey) && '\n' !in Interpolated(baseUrl) && '\n' !in Interpolated(modelName)
    ensures '\n' !in "API_KEY=" + Interpolated(apiKey)
    ensures '\n' !in "BASE_URL=" + Interpolated(baseUrl)
    ensures '\n' !in "MODEL_NAME=" + Interpolated(modelName)
  {
  }

  lemma EnvContentJoined(apiKey: Option<string>, baseUrl: Option<string>, modelName: Option<string>)
    ensures EnvContent(apiKey, baseUrl, modelName) ==
              ("API_KEY=" + Interpolated(apiKey)) + "\n" + (("BASE_URL=" + Interpolated(baseUrl)) + "\n" + ("MODEL_NAME=" + Interpolated(modelName)))
  {
  }

  /** The legacy settings handler: the four fields replace the configuration, three are written to `.env`. */
  method LegacySettings(srv: LegacyServer, apiKey: Option<string>, baseUrl: Option<string>, modelName: Option<string>, systemPrompt: Option<string>) returns (resp: Routes.Response)
    modifies srv
    ensures srv.currentConfig == AiConfig(apiKey, baseUrl, modelName, systemPrompt)
    ensures srv.envWrites == old(srv.envWrites) + [EnvContent(apiKey, baseUrl, modelName)]
    ensures resp == Routes.OkWithConfig(srv.currentConfig)
    ensures srv.sockPresent == old(srv.sockPresent) && srv.qrCodeData == old(srv.qrCodeData) && srv.status == old(srv.status)
    ensures srv.pausedChats == old(srv.pausedChats) && srv.emitted == old(srv.emitted)
  {
    srv.currentConfig := AiConfig(apiKey, baseUrl, modelName, systemPrompt);
    srv.envWrites := srv.envWrites + [EnvContent(apiKey, baseUrl, modelName)];
    resp := Routes.OkWithConfig(srv.currentConfig);
  }

  /**
   * What `dotenv` gives `key` from the lines of a `.env` text, reduced to
   * plain `KEY=value` lines: the rest of the last line that starts with
   * `key=`, or nothing when no line does.
   */
  function EnvRead(lines: seq<string>, key: string): (v: Option<string>)
    ensures v.Some? ==> exists i | 0 <= i < |lines| :: lines[i] == key + "=" + v.value
  {
    if lines == [] then None
    else
      var last := lines[|lines| - 1];
      if StartsWith(last, key + "=") then
        assert last == key + "=" + last[|key| + 1..];
        Some(last[|key| + 1..])
      else EnvRead(lines[..|lines| - 1], key)
  }

  /**
   * A restart after `POST /api/settings` reads the three written values back
   * through `dotenv` and rebuilds the start-up configuration from them: the
   * key, URL and model come back (an unset one as the text "undefined"), and
   * the system prompt is the default whatever was posted.
   */
  lemma SettingsAfterRestart(apiKey: Option<string>, baseUrl: Option<string>, modelName: Option<string>)
    requires '\n' !in Interpolated(apiKey) && '\n' !in Interpolated(baseUrl) && '\n' !in Interpolated(modelName)
    ensures var lines := Lines(EnvContent(apiKey, baseUrl, modelName));
            var env := Env(EnvRead(lines, "API_KEY"), EnvRead(lines, "BASE_URL"), EnvRead(lines, "MODEL_NAME"));
            && env == Env(Some(Interpolated(apiKey)), Some(Interpolated(baseUrl)), Some(Interpolated(modelName)))
            && InitialConfig(env).apiKey == Some(Interpolated(apiKey))
            && (apiKey.None? ==> InitialConfig(env).apiKey == Some("undefined"))
            && (Truthy(baseUrl) ==> InitialConfig(env).baseUrl == baseUrl)
            && (Truthy(modelName) ==> InitialConfig(env).modelName == modelName)
            && InitialConfig(env).systemPrompt == Some(DefaultSystemPrompt)
  {
    EnvContentHasThreeLines(apiKey, baseUrl, modelName);
    ReadThreeLines(Interpolated(apiKey), Interpolated(baseUrl), Interpolated(modelName));
  }

  /** `key=value` as the last line is what `key` reads. */
  lemma EnvReadHit(init: seq<string>, key: string, value: string)
    ensures EnvRead(init + [key + "=" + value], key) == Some(value)
  {
    var last := key + "=" + value;
    assert (init + [last])[|init|] == last && StartsWith(last, key + "=");
    assert last[|key| + 1..] == value;
  }

  /** A last line for another key is skipped. */
  lemma EnvReadMiss(init: seq<string>, key: string, line: string)
    requires line != [] && key != [] && line[0] != key[0]
    ensures EnvRead(init + [line], key) == EnvRead(init, key)
  {
    assert (init + [line])[|init|] == line && (init + [line])[..|init|] == init;
    assert (key + "=")[0] == key[0];
  }

  /** Reading each key back from the three lines written by the legacy settings route. */
  lemma ReadThreeLines(a: string, b: string, c: string)
    ensures var lines := ["API_KEY=" + a, "BASE_URL=" + b, "MODEL_NAME=" + c];
            EnvRead(lines, "API_KEY") == Some(a) && EnvRead(lines, "BASE_URL") == Some(b) && EnvRead(lines, "MODEL_NAME") == Some(c)
  {
    var l1, l2, l3 := "API_KEY=" + a, "BASE_URL=" + b, "MODEL_NAME=" + c;
    assert [l1, l2, l3] == [l1, l2] + [l3] && [l1, l2] == [l1] + [l2] && [l1] == [] + [l1];
    assert l1[0] == 'A' && l2[0] == 'B' && l3[0] == 'M';
    EnvReadHit([], "API_KEY", a);
    EnvReadMiss([l1], "API_KEY", l2);
    EnvReadMiss([l1, l2], "API_KEY", l3);
    EnvReadHit([l1], "BASE_URL", b);
    EnvReadMiss([l1, l2], "BASE_URL", l3);
    EnvReadHit([l1, l2], "MODEL_NAME", c);
  }

  // ---------------------------------------------------------------------
  // POST /api/send and /api/toggle-bot
  // ---------------------------------------------------------------------

  /** The two kinds of value the guard compares. */
  datatype JsValue = JsBool(b: bool) | JsString(s: string)

  /** `===`: values of different types are never equal. */
  function StrictEquals(a: JsValue, b: JsValue): (equal: bool)
    ensures a.JsBool? != b.JsBool? ==> !equal
    ensures a == b ==> equal
  {
    a == b
  }

  /**
   * The legacy send guard as written, `!status === 'connected' || !sock`:
   * `!status` is the boolean negation of a status string, compared strictly
   * with a string.
   */
  function LegacyGuardRejects(status: ConnStatus, sockPresent: bool): (rejects: bool)
    ensures rejects <==> !sockPresent
  {
    StrictEquals(JsBool(StatusText(status) == []), JsString("connected")) || !sockPresent
  }

  /**
   * The guard lets a send through while disconnected or waiting for a scan,
   * where the modular server refuses it.
   */
  lemma GuardIgnoresStatus()
    ensures !LegacyGuardRejects(Disconnected, true) && !LegacyGuardRejects(WaitingForScan, true)
  {
  }

  /** The legacy send: rejected only without a socket; otherwise as the modular send. */
  method LegacySend(srv: LegacyServer, remoteJid: string, text: string, outcome: WhatsApp.Step) returns (resp: Routes.Response)
    modifies srv
    ensures !srv.sockPresent ==> resp == Routes.Error(Routes.ServerError, Routes.BotNotConnected) && srv.emitted == old(srv.emitted)
    ensures srv.sockPresent && outcome.Fail? ==> resp == Routes.Error(Routes.ServerError, outcome.message) && srv.emitted == old(srv.emitted)
    ensures resp == Routes.Succeeded <==> srv.sockPresent && outcome.Ok?
    ensures resp == Routes.Succeeded ==> srv.emitted == old(srv.emitted) + [MsgLogOut(remoteJid, text, true)]
    ensures srv.sockPresent == old(srv.sockPresent) && srv.currentConfig == old(srv.currentConfig)
    ensures srv.qrCodeData == old(srv.qrCodeData) && srv.status == old(srv.status)
    ensures srv.pausedChats == old(srv.pausedChats) && srv.envWrites == old(srv.envWrites)
  {
    if LegacyGuardRejects(srv.status, srv.sockPresent) {
      return Routes.Error(Routes.ServerError, Routes.BotNotConnected);
    }
    if outcome.Fail? {
      return Routes.Error(Routes.ServerError, outcome.message);
    }
    srv.emitted := srv.emitted + [MsgLogOut(remoteJid, text, true)];
    resp := Routes.Succeeded;
  }

  /** The legacy toggle: the same set update as the modular server, but nothing is saved. */
  method LegacyToggleBot(srv: LegacyServer, remoteJid: string, action: string) returns (resp: Routes.Response)
    modifies srv
    ensures srv.pausedChats == Routes.Toggled(old(srv.pausedChats), remoteJid, action)
    ensures resp == Routes.OkPaused(remoteJid in srv.pausedChats)
    ensures resp.isPaused <==> action == "pause"
    ensures srv.emitted == old(srv.emitted) + [PausedUpdate(remoteJid, remoteJid in srv.pausedChats)]
    ensures srv.sockPresent == old(srv.sockPresent) && srv.currentConfig == old(srv.currentConfig)
    ensures srv.qrCodeData == old(srv.qrCodeData) && srv.status == old(srv.status) && srv.envWrites == old(srv.envWrites)
  {
    if action == "pause" {
      srv.pausedChats := srv.pausedChats + {remoteJid};
    } else {
      srv.pausedChats := srv.pausedChats - {remoteJid};
    }
    srv.emitted := srv.emitted + [PausedUpdate(remoteJid, remoteJid in srv.pausedChats)];
    resp := Routes.OkPaused(remoteJid in srv.pausedChats);
  }
}
