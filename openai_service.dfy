/** The language-dependent logic of `OpenAIService` in
    app/services/openai_service.py: the system-prompt table with its English
    fallback, the text-to-speech language map, the composition of the
    message list sent for a chat completion, and the fixed prefixes under
    which each service call re-raises a failure. The remote completion,
    speech synthesis and transcription calls are parameters. */
module OpenAI {
  import opened Wrappers
  import opened Stats

  /** A chat message, the `{"role": ..., "content": ...}` dictionary. */
  datatype Message = Message(role: string, content: string)

  /** The request `client.chat.completions.create` receives. */
  datatype ChatRequest = ChatRequest(model: string, messages: seq<Message>, temperature: real, maxTokens: nat)

  /** `settings.OPENAI_MODEL` */
  const DefaultModel: string := "gpt-4o-mini"
  const MaxTokens: nat := 500
  const TranscriptionModel: string := "whisper-1"
  const ChatErrorPrefix: string := "OpenAI API error: "
  const SpeechErrorPrefix: string := "Text-to-speech error: "
  const TranscriptionErrorPrefix: string := "Speech-to-text error: "

  const EnglishPrompt: string :=
    "You are KhetiAI, an intelligent agricultural assistant. You help farmers with:\n"
    + "                - Crop health analysis and recommendations\n"
    + "                - Weather-based farming advice\n"
    + "                - Soil management guidance\n"
    + "                - Pest and disease identification\n"
    + "                - Optimal planting and harvesting times\n"
    + "                - Sustainable farming practices\n"
    + "                \n"
    + "                Always provide practical, actionable advice in a friendly, supportive tone. \n"
    + "                If you don't know something, admit it and suggest consulting local agricultural experts."

  const UrduPrompt: string :=
    "آپ کھیتی اے آئی ہیں، ایک ذہین زرعی معاون۔ آپ کسانوں کی مدد کرتے ہیں:\n"
    + "                - فصل کی صحت کا تجزیہ اور سفارشات\n"
    + "                - موسم کی بنیاد پر کاشتکاری کا مشورہ\n"
    + "                - مٹی کی دیکھ بھال کی رہنمائی\n"
    + "                - کیڑوں اور بیماریوں کی شناخت\n"
    + "                - بہترین بوائی اور کٹائی کے اوقات\n"
    + "                - پائیدار کاشتکاری کے طریقے\n"
    + "                \n"
    + "                ہمیشہ عملی، قابل عمل مشورے دوستانہ اور مددگار انداز میں دیں۔\n"
    + "                اگر آپ کچھ نہیں جانتے تو اس کا اعتراف کریں اور مقامی زرعی ماہرین سے مشورہ کرنے کی تجویز دیں۔"

  const SystemMessages: map<string, Message> :=
    map["en" := Message("system", EnglishPrompt), "ur" := Message("system", UrduPrompt)]

  /** `_get_system_message`: the Urdu prompt for "ur", the English prompt for
      "en" and for every other tag, always in the system role. */
  function GetSystemMessage(language: string): (m: Message)
    ensures m.role == "system"
    ensures language == "ur" ==> m.content == UrduPrompt
    ensures language != "ur" ==> m.content == EnglishPrompt
  {
    GetOr(SystemMessages, language, SystemMessages["en"])
  }

  /** The two prompts differ, so the prompt tells the two languages apart. */
  lemma SystemPromptIsUrduExactlyForUrdu(language: string)
    ensures GetSystemMessage(language).content == UrduPrompt <==> language == "ur"
  {
    assert |EnglishPrompt| == 596 && |UrduPrompt| == 560;
  }

  const TtsLanguages: map<string, string> := map["en" := "en", "ur" := "ur"]

  /** `lang_map.get(language, "en")` in `text_to_speech`. */
  function TtsLanguage(language: string): (tts: string)
    ensures tts == "ur" <==> language == "ur"
    ensures tts == "en" <==> language != "ur"
  {
    GetOr(TtsLanguages, language, "en")
  }

  /** `[system_message] + messages` with the model and sampling settings. */
  function ChatRequestFor(model: string, messages: seq<Message>, language: string, temperature: real): (q: ChatRequest)
    ensures |q.messages| == |messages| + 1
    ensures q.messages[0] == GetSystemMessage(language)
    ensures forall i :: 0 <= i < |messages| ==> q.messages[i + 1] == messages[i]
    ensures q.model == model && q.temperature == temperature && q.maxTokens == MaxTokens
  {
    ChatRequest(model, [GetSystemMessage(language)] + messages, temperature, MaxTokens)
  }

  /** The caller's messages come back unchanged after the system message. */
  lemma ChatRequestKeepsMessages(model: string, messages: seq<Message>, language: string, temperature: real)
    ensures ChatRequestFor(model, messages, language, temperature).messages[1..] == messages
  {
    var q := ChatRequestFor(model, messages, language, temperature);
    assert forall i :: 0 <= i < |messages| ==> q.messages[1..][i] == messages[i];
  }

  /** The service object, fixed when it is created. `apiKey` is the key the
      source's client is configured with; it only configures that client,
      and the client's calls are the function parameters of the methods, so
      no member reads it. `model` is the model every chat request names. */
  class OpenAIService {
    const apiKey: string
    const model: string

    constructor (apiKey: string)
      ensures this.apiKey == apiKey && model == DefaultModel
    {
      this.apiKey := apiKey;
      model := DefaultModel;
    }

    /** `get_chat_completion`: `complete` is the remote call, giving the
        reply's content or the error it raised. */
    method GetChatCompletion(messages: seq<Message>, complete: ChatRequest -> Result<string, string>,
        language: string := "en", temperature: real := 0.7)
      returns (r: Result<string, string>)
      ensures var reply := complete(ChatRequestFor(model, messages, language, temperature));
        && (reply.Ok? ==> r == reply)
        && (reply.Err? ==> r == Err(ChatErrorPrefix + reply.error))
    {
      var request := ChatRequestFor(model, messages, language, temperature);
      var reply := complete(request);
      r := WithPrefix(ChatErrorPrefix, reply);
    }

    /** `text_to_speech`: `synthesize(text, lang)` is gTTS writing the audio
        bytes, or the error it raised. */
    method TextToSpeech(text: string, synthesize: (string, string) -> Result<seq<Byte>, string>,
        language: string := "en")
      returns (r: Result<seq<Byte>, string>)
      ensures var audio := synthesize(text, TtsLanguage(language));
        && (audio.Ok? ==> r == audio)
        && (audio.Err? ==> r == Err(SpeechErrorPrefix + audio.error))
    {
      var audio := synthesize(text, TtsLanguage(language));
      r := WithPrefix(SpeechErrorPrefix, audio);
    }

    /** `speech_to_text`: `transcribe(model, audio)` is the transcription
        call on the audio bytes, giving the transcript or the error raised on
        the way (writing the temporary file included). */
    method SpeechToText(audio: seq<Byte>, transcribe: (string, seq<Byte>) -> Result<string, string>)
      returns (r: Result<string, string>)
      ensures var transcript := transcribe(TranscriptionModel, audio);
        && (transcript.Ok? ==> r == transcript)
        && (transcript.Err? ==> r == Err(TranscriptionErrorPrefix + transcript.error))
    {
      var transcript := transcribe(TranscriptionModel, audio);
      r := WithPrefix(TranscriptionErrorPrefix, transcript);
    }
  }
}
