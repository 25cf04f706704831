/** `parse_client_info`: the guard on the API key, the cleaning of the
    model's reply and the error records it returns. The model call and the
    JSON decoder are inputs. */
module GeminiService {
  import opened Invoice
  import Text

  const MissingKeyMessage: string := "Falta la API Key en el archivo .env"
  const EmptyReplyMessage: string := "La IA no devolvió texto en la respuesta"
  /** Prefixed to the text of any exception raised while configuring,
      calling or decoding. */
  const FailurePrefix: string := "Fallo en el servicio de IA: "
  /** The opening fence of a JSON code block. */
  const JsonFence: string := "```json"

  /** What asking the model yields: an exception with its text, or the
      response text (possibly empty). */
  datatype ModelReply = Raised(message: string) | Replied(text: string)

  /** What the JSON decoder yields: an object of string fields, or the text
      of the exception it raised. */
  datatype JsonResult = Parsed(value: ClientData) | Malformed(message: string)

  type JsonDecoder = string -> JsonResult

  /** The single-key record every failure path returns. */
  function ErrorRecord(message: string): (r: ClientData)
    ensures r.Keys == {"error"} && r["error"] == message
  {
    map["error" := message]
  }

  /** Python truthiness of the optional environment variable. */
  predicate HasKey(apiKey: Option<string>) {
    apiKey.Some? && apiKey.value != []
  }

  /** Removing every "```" leaves none behind, even where removal brings
      backticks together. */
  function RemoveFences(text: string): (r: string)
    ensures !Text.Contains(r, Text.Fence)
  {
    Text.FenceRemovalComplete(text);
    Text.ReplaceAll(text, Text.Fence, "")
  }

  /** Removes every "```json", then every "```", then surrounding
      whitespace: no fence survives and nothing is left to strip. */
  function CleanResponse(text: string): (r: string)
    ensures !Text.Contains(r, Text.Fence)
    ensures Text.Trimmed(r)
  {
    var unfenced := RemoveFences(Text.ReplaceAll(text, JsonFence, ""));
    Text.StripKeepsAbsent(unfenced, Text.Fence);
    Text.Strip(unfenced)
  }

  /** Text without a fence and without surrounding whitespace comes out of
      cleaning unchanged. */
  lemma {:induction false} CleanResponseUnchanged(text: string)
    requires !Text.Contains(text, Text.Fence)
    requires Text.Trimmed(text)
    ensures CleanResponse(text) == text
  {
    NoFenceNoJsonFence(text);
    Text.ReplaceAbsent(text, JsonFence, "");
    Text.ReplaceAbsent(text, Text.Fence, "");
    assert RemoveFences(text) == text;
    Text.StripUnchanged(text);
  }

  lemma NoFenceNoJsonFence(text: string)
    requires !Text.Contains(text, Text.Fence)
    ensures !Text.Contains(text, JsonFence)
  {
    assert JsonFence == Text.Fence + "json";
    if Text.Contains(text, JsonFence) {
      Text.ContainsExtension(text, Text.Fence, "json");
    }
  }

  /** Cleaning twice is cleaning once. */
  lemma {:induction false} CleanResponseIdempotent(text: string)
    ensures CleanResponse(CleanResponse(text)) == CleanResponse(text)
  {
    CleanResponseUnchanged(CleanResponse(text));
  }

  /** Extracts the client record from the model's reply. Without a key the
      model is not consulted; an exception, an empty reply or a decoding
      failure gives an error record; otherwise the decoded object of the
      cleaned reply is returned as it is. */
  function ParseClientInfo(apiKey: Option<string>, reply: ModelReply, decode: JsonDecoder): (r: ClientData)
    ensures !HasKey(apiKey) ==> r == ErrorRecord(MissingKeyMessage)
    ensures HasKey(apiKey) && reply.Raised? ==> r == ErrorRecord(FailurePrefix + reply.message)
    ensures HasKey(apiKey) && reply == Replied("") ==> r == ErrorRecord(EmptyReplyMessage)
    ensures HasKey(apiKey) && reply.Replied? && reply.text != [] ==>
      match decode(CleanResponse(reply.text))
      case Parsed(v) => r == v
      case Malformed(e) => r == ErrorRecord(FailurePrefix + e)
    ensures r.Keys != {"error"} ==>
      HasKey(apiKey) && reply.Replied? && reply.text != [] && decode(CleanResponse(reply.text)) == Parsed(r)
  {
    if !HasKey(apiKey) then ErrorRecord(MissingKeyMessage)
    else match reply
      case Raised(e) => ErrorRecord(FailurePrefix + e)
      case Replied(text) =>
        if text == [] then ErrorRecord(EmptyReplyMessage)
        else match decode(CleanResponse(text))
          case Parsed(v) => v
          case Malformed(e) => ErrorRecord(FailurePrefix + e)
  }

  /** Without a key the result depends neither on the model nor on the decoder. */
  lemma MissingKeyIgnoresModel(apiKey: Option<string>, r1: ModelReply, r2: ModelReply, d1: JsonDecoder, d2: JsonDecoder)
    requires !HasKey(apiKey)
    ensures ParseClientInfo(apiKey, r1, d1) == ParseClientInfo(apiKey, r2, d2)
    ensures ParseClientInfo(apiKey, r1, d1).Keys == {"error"}
  {
  }

  /** The decoder only ever sees cleaned text: two replies that clean to the
      same text give the same record. */
  lemma DecoderSeesCleanedText(apiKey: Option<string>, t1: string, t2: string, decode: JsonDecoder)
    requires t1 != [] && t2 != [] && CleanResponse(t1) == CleanResponse(t2)
    ensures ParseClientInfo(apiKey, Replied(t1), decode) == ParseClientInfo(apiKey, Replied(t2), decode)
  {
  }
}
