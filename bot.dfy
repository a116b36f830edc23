/** The per-user session bookkeeping of the bot: the `context.user_data`
    dictionary that every update handler of one user shares, and the four
    handlers that touch it (handle_text, handle_voice, reset and
    button_handler). Telegram and model calls are not modelled; a model
    call is a function from the input it is sent to its outcome. */
module Bot {
  import opened Session

  /** The keys the handlers store under in `context.user_data`: `"history"`
      and `"last_voice"`; no handler stores under any other key. */
  datatype Key = HistoryKey | LastVoiceKey

  /** Callback data of the "new dialogue" button. */
  const ResetData: string := "reset"

  /** Prefix of the reply handle_text sends when the model call fails. */
  const TextErrorPrefix: string := "❌ Ошибка: "

  /** Prefix of the reply echoing a voice transcript. */
  const RecognisedPrefix: string := "🎙 Распознал: "

  /** Prefix of the reply handle_voice sends when any of its steps raises. */
  const VoiceErrorPrefix: string := "Ошибка обработки голоса: "

  /** A value stored in the per-user dictionary. */
  datatype Value = HistoryValue(turns: seq<Turn>) | TextValue(text: string)

  /** What a call into a foreign service produced: its value, or the
      message of the exception it raised. */
  datatype Outcome<T> = Ok(value: T) | Failed(error: string)

  /** The contents of `context.user_data`. */
  type UserMap = map<Key, Value>

  /** How far handle_voice got before it returned or raised. */
  datatype VoiceOutcome =
      /** Downloading, transcribing, removing the file or echoing the
          transcript raised, before "last_voice" is stored. */
    | NotTranscribed(error: string)
      /** The transcript was stored and re-dispatched to handle_text. */
    | Transcribed(transcript: string)
      /** The transcript was stored, then building the re-dispatched update
          or setting its text raised before handle_text was reached. */
    | RedispatchFailed(transcript: string, error: string)

  /** One inbound update that reaches a state-touching handler. */
  datatype Update =
    | TextMessage(text: string)
    | VoiceMessage(outcome: VoiceOutcome)
    | ButtonPress(data: string)

  /** What the handlers ever leave in the dictionary: a history of at most
      ten user turns, and a transcript. */
  predicate WellFormed(d: UserMap)
  {
    && (HistoryKey in d ==>
          && d[HistoryKey].HistoryValue?
          && |d[HistoryKey].turns| <= HistoryLimit
          && AllUser(d[HistoryKey].turns))
    && (LastVoiceKey in d ==> d[LastVoiceKey].TextValue?)
  }

  /** `user_data.get("history", [])`. */
  function HistoryOf(d: UserMap): (h: seq<Turn>)
    requires WellFormed(d)
    ensures HistoryKey in d ==> h == d[HistoryKey].turns
    ensures HistoryKey !in d ==> h == []
    ensures |h| <= HistoryLimit
  {
    if HistoryKey in d then d[HistoryKey].turns else []
  }

  /** `user_data["history"] = h`: the next read of the history gives `h`
      and the transcript entry is left as it was. */
  function WithHistory(d: UserMap, h: seq<Turn>): (r: UserMap)
    requires WellFormed(d)
    requires |h| <= HistoryLimit && AllUser(h)
    ensures WellFormed(r)
    ensures HistoryOf(r) == h
    ensures LastVoiceKey in r <==> LastVoiceKey in d
    ensures LastVoiceKey in d ==> r[LastVoiceKey] == d[LastVoiceKey]
  {
    d[HistoryKey := HistoryValue(h)]
  }

  /** `user_data["last_voice"] = t`: the transcript is recorded and the
      history is left as it was. */
  function WithTranscript(d: UserMap, t: string): (r: UserMap)
    requires WellFormed(d)
    ensures WellFormed(r)
    ensures HistoryOf(r) == HistoryOf(d)
    ensures LastVoiceKey in r && r[LastVoiceKey] == TextValue(t)
  {
    d[LastVoiceKey := TextValue(t)]
  }

  /** The dictionary after handle_text has handled the message `text`. */
  function AfterText(d: UserMap, text: string): (r: UserMap)
    requires WellFormed(d)
    ensures WellFormed(r)
    ensures HistoryOf(r) == Stored(HistoryOf(d), text)
    ensures LastVoiceKey in r <==> LastVoiceKey in d
    ensures LastVoiceKey in d ==> r[LastVoiceKey] == d[LastVoiceKey]
  {
    var history := HistoryOf(d);
    StoredAllUser(history, text);
    WithHistory(d, Stored(history, text))
  }

  /** Helper: `AfterText` with the stored window written out. */
  lemma AfterTextStoresWindow(d: UserMap, text: string)
    requires WellFormed(d)
    ensures AfterText(d, text)
         == WithHistory(d, LastN(HistoryOf(d) + [UserTurn(text)], HistoryLimit))
  {
    StoredIsWindow(HistoryOf(d), text);
  }

  /** The dictionary after reset: `user_data.clear()`. */
  function AfterReset(d: UserMap): (r: UserMap)
    ensures WellFormed(r)
    ensures HistoryOf(r) == [] && LastVoiceKey !in r
  {
    map[]
  }

  /** The dictionary after button_handler has handled callback data `data`. */
  function AfterButton(d: UserMap, data: string): (r: UserMap)
    requires WellFormed(d)
    ensures WellFormed(r)
    ensures data != ResetData ==> r == d
    ensures data == ResetData ==> HistoryOf(r) == [] && LastVoiceKey !in r
  {
    if data == ResetData then AfterReset(d) else d
  }

  /** The dictionary after handle_voice, given how far it got. */
  function AfterVoice(d: UserMap, outcome: VoiceOutcome): (r: UserMap)
    requires WellFormed(d)
    ensures WellFormed(r)
    ensures outcome.NotTranscribed? ==> r == d
    ensures !outcome.NotTranscribed? ==>
              LastVoiceKey in r && r[LastVoiceKey] == TextValue(outcome.transcript)
    ensures outcome.Transcribed? ==> HistoryOf(r) == Stored(HistoryOf(d), outcome.transcript)
    ensures outcome.RedispatchFailed? ==> HistoryOf(r) == HistoryOf(d)
  {
    match outcome
    case NotTranscribed(_) => d
    case Transcribed(t) => AfterText(WithTranscript(d, t), t)
    case RedispatchFailed(t, _) => WithTranscript(d, t)
  }

  /** A voice message whose transcript reaches handle_text leaves the
      dictionary exactly as the same text typed by the user would, except
      that it also records the transcript. */
  lemma VoiceIsTypedText(d: UserMap, t: string)
    requires WellFormed(d)
    ensures AfterVoice(d, Transcribed(t)) == WithTranscript(AfterText(d, t), t)
  {
    var w := HistoryValue(LastN(HistoryOf(d) + [UserTurn(t)], HistoryLimit));
    assert d[LastVoiceKey := TextValue(t)][HistoryKey := w] == d[HistoryKey := w][LastVoiceKey := TextValue(t)];
    AfterTextStoresWindow(d, t);
    AfterTextStoresWindow(WithTranscript(d, t), t);
  }

  /** The dictionary after one update. */
  function Step(d: UserMap, u: Update): (r: UserMap)
    requires WellFormed(d)
    ensures WellFormed(r)
  {
    match u
    case TextMessage(text) => AfterText(d, text)
    case VoiceMessage(outcome) => AfterVoice(d, outcome)
    case ButtonPress(data) => AfterButton(d, data)
  }

  /** The dictionary after a run of updates handled one after another; the
      invariant holds after every one of them. */
  function Run(d: UserMap, updates: seq<Update>): (r: UserMap)
    requires WellFormed(d)
    ensures WellFormed(r)
    ensures |HistoryOf(r)| <= HistoryLimit
    decreases |updates|
  {
    if updates == [] then d else Run(Step(d, updates[0]), updates[1..])
  }

  /** The typed messages of a run of texts. */
  function TextMessages(texts: seq<string>): (r: seq<Update>)
    ensures |r| == |texts|
    ensures forall i :: 0 <= i < |texts| ==> r[i] == TextMessage(texts[i])
  {
    if texts == [] then [] else [TextMessage(texts[0])] + TextMessages(texts[1..])
  }

  /** After any run of typed messages the history is the last ten user
      turns of the old history followed by the new messages, in order. */
  lemma {:induction false} RunTextsKeepsLastTurns(d: UserMap, texts: seq<string>)
    requires WellFormed(d)
    ensures HistoryOf(Run(d, TextMessages(texts)))
         == Replay(HistoryOf(d), texts)
         == LastN(HistoryOf(d) + UserTurns(texts), HistoryLimit)
    decreases |texts|
  {
    ReplayKeepsLastTurns(HistoryOf(d), texts);
    if texts != [] {
      var us := TextMessages(texts);
      assert us[0] == TextMessage(texts[0]) && us[1..] == TextMessages(texts[1..]);
      RunTextsKeepsLastTurns(AfterText(d, texts[0]), texts[1..]);
    }
  }

  /** After a reset, the first typed message leaves a history of exactly
      that one user turn. */
  lemma FirstMessageAfterReset(d: UserMap, text: string)
    requires WellFormed(d)
    ensures HistoryOf(Run(d, [ButtonPress(ResetData), TextMessage(text)])) == [UserTurn(text)]
  {
    var cleared := Step(d, ButtonPress(ResetData));
    assert [ButtonPress(ResetData), TextMessage(text)][1..] == [TextMessage(text)];
    assert Run(d, [ButtonPress(ResetData), TextMessage(text)]) == Run(cleared, [TextMessage(text)]);
    assert Run(cleared, [TextMessage(text)]) == AfterText(cleared, text);
  }

  /** The reply handle_text sends for the outcome of the model call. */
  function TextReply(response: Outcome<string>): (reply: string)
    ensures response.Failed? ==> reply == TextErrorPrefix + response.error
    ensures response.Ok? ==> reply == response.value
  {
    match response
    case Ok(answer) => answer
    case Failed(e) => TextErrorPrefix + e
  }

  /** The session state of one user, `context.user_data`. */
  class UserData {
    var data: UserMap

    ghost predicate Valid()
      reads this
    {
      WellFormed(data)
    }

    /** The dictionary of a user the bot has not seen yet. */
    constructor ()
      ensures Valid() && data == map[]
    {
      data := map[];
    }

    /** `user_data.get("history", [])`. */
    function History(): (h: seq<Turn>)
      reads this
      requires Valid()
      ensures |h| <= HistoryLimit
    {
      HistoryOf(data)
    }

    /** handle_text: append the user turn, store the last ten turns, then
        send the whole list to the model; `model` stands for the model
        call and its answer extraction. Returns what was sent and the reply
        shown to the user. The stored state does not depend on `model`. */
    method HandleText(text: string, model: seq<Turn> -> Outcome<string>)
      returns (input: seq<Turn>, reply: string)
      requires Valid()
      modifies this
      ensures Valid()
      ensures data == AfterText(old(data), text)
      ensures input == ModelInput(old(History()), text)
      ensures History() == LastN(input, HistoryLimit)
      ensures reply == TextReply(model(input))
    {
      var chatHistory := HistoryOf(data);
      AfterTextStoresWindow(data, text);
      chatHistory := chatHistory + [UserTurn(text)];
      data := WithHistory(data, LastN(chatHistory, HistoryLimit));
      input := chatHistory;
      var response := model(input);
      match response
      case Ok(answer) =>
        reply := answer;
      case Failed(e) =>
        reply := TextErrorPrefix + e;
    }

    /** reset: clear the whole dictionary. */
    method Reset()
      requires Valid()
      modifies this
      ensures Valid()
      ensures data == AfterReset(old(data))
      ensures History() == [] && LastVoiceKey !in data
    {
      data := map[];
    }

    /** button_handler: reset only for the callback data "reset". */
    method ButtonHandler(callbackData: string)
      requires Valid()
      modifies this
      ensures Valid()
      ensures data == AfterButton(old(data), callbackData)
      ensures callbackData != ResetData ==> data == old(data)
    {
      if callbackData == ResetData {
        Reset();
      }
    }

    /** handle_voice: `outcome` stands for downloading the voice message,
        transcribing it, removing the file, echoing the transcript and
        building the re-dispatched update. Once the transcript is echoed it
        is stored under "last_voice"; if re-dispatching works it is handled
        like a typed message, otherwise only the voice error reply follows. */
    method HandleVoice(outcome: VoiceOutcome, model: seq<Turn> -> Outcome<string>)
      returns (replies: seq<string>)
      requires Valid()
      modifies this
      ensures Valid()
      ensures data == AfterVoice(old(data), outcome)
      ensures outcome.NotTranscribed? ==>
                data == old(data) && replies == [VoiceErrorPrefix + outcome.error]
      ensures outcome.Transcribed? ==>
                replies == [RecognisedPrefix + outcome.transcript,
                            TextReply(model(ModelInput(old(History()), outcome.transcript)))]
      ensures outcome.RedispatchFailed? ==>
                replies == [RecognisedPrefix + outcome.transcript,
                            VoiceErrorPrefix + outcome.error]
    {
      match outcome
      case NotTranscribed(e) =>
        replies := [VoiceErrorPrefix + e];
      case Transcribed(text) =>
        data := WithTranscript(data, text);
        assert History() == old(History());
        var _, reply := HandleText(text, model);
        replies := [RecognisedPrefix + text, reply];
      case RedispatchFailed(text, e) =>
        data := WithTranscript(data, text);
        replies := [RecognisedPrefix + text, VoiceErrorPrefix + e];
    }
  }
}
