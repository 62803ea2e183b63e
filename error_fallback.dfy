/**
 * The error view (components/ui/ErrorFallback.tsx): the classification of
 * an error by the words in its message, and which type, title and message
 * the view shows.
 */
module ErrorFallback {
  import opened Common
  import opened MovieTypes
  import TmdbClient

  /** `ErrorType` */
  datatype ErrorType = Network | Server | NotFound | Generic

  /** An `Error` as the classifier reads it: its `message`, which may be undefined. */
  datatype JsError = JsError(message: Option<string>)

  /** `getErrorType(error)`: the lower-cased message is matched rule by rule. */
  function GetErrorType(error: Option<JsError>): ErrorType {
    if error.None? then Generic
    else
      var m := ToLower(error.value.message.GetOr(""));
      if Contains(m, "network") || Contains(m, "fetch") || Contains(m, "timeout") then Network
      else if Contains(m, "500") || Contains(m, "server") then Server
      else if Contains(m, "404") || Contains(m, "not found") then NotFound
      else Generic
  }

  /** The rules as a table: each type with the words that select it, in the order they are tried. */
  const Rules: seq<(ErrorType, seq<string>)> := [
    (Network, ["network", "fetch", "timeout"]),
    (Server, ["500", "server"]),
    (NotFound, ["404", "not found"])]

  predicate ContainsAny(s: string, words: seq<string>) {
    exists i :: 0 <= i < |words| && Contains(s, words[i])
  }

  /** The type of the first rule with a word in the text; `Generic` when none has. */
  function FirstMatch(rules: seq<(ErrorType, seq<string>)>, s: string): ErrorType
    decreases |rules|
  {
    if rules == [] then Generic
    else if ContainsAny(s, rules[0].1) then rules[0].0
    else FirstMatch(rules[1..], s)
  }

  /**
   * No error is generic; otherwise the first rule of the table whose words
   * occur in the message wins, whatever the case of its letters.
   */
  lemma ClassifierIsFirstMatch(error: Option<JsError>)
    ensures error.None? ==> GetErrorType(error) == Generic
    ensures error.Some? ==> GetErrorType(error) == FirstMatch(Rules, ToLower(error.value.message.GetOr("")))
    ensures error.Some? ==> GetErrorType(error) == GetErrorType(Some(JsError(Some(ToLower(error.value.message.GetOr(""))))))
  {
    if error.Some? {
      var m := ToLower(error.value.message.GetOr(""));
      ToLowerIdempotent(error.value.message.GetOr(""));
      assert Rules[1..] == [(Server, ["500", "server"]), (NotFound, ["404", "not found"])];
      assert Rules[1..][1..] == [(NotFound, ["404", "not found"])];
      assert Rules[1..][1..][1..] == [];
      var w0: seq<string> := ["network", "fetch", "timeout"];
      var w1: seq<string> := ["500", "server"];
      var w2: seq<string> := ["404", "not found"];
      assert ContainsAny(m, w0) <==> Contains(m, w0[0]) || Contains(m, w0[1]) || Contains(m, w0[2]);
      assert ContainsAny(m, w1) <==> Contains(m, w1[0]) || Contains(m, w1[1]);
      assert ContainsAny(m, w2) <==> Contains(m, w2[0]) || Contains(m, w2[1]);
    }
  }

  /**
   * The gateway's transport failures — a `fetch` that threw, or a body that
   * did not parse — read "Failed to fetch from TMDB: …", so they classify
   * as network errors.
   */
  lemma GatewayFailuresAreNetwork<T>(outcome: TmdbClient.FetchOutcome<T>)
    requires outcome.FetchThrew? || (outcome.OkResponse? && outcome.body.ParseFailed?)
    ensures TmdbClient.RequestResult(outcome).Err?
    ensures GetErrorType(Some(JsError(Some(TmdbClient.RequestResult(outcome).error.message)))) == Network
  {
    TmdbClient.RequestErrors(outcome);
    var msg := TmdbClient.RequestResult(outcome).error.message;
    var prefix := "Failed to fetch from TMDB: ";
    assert msg[..27] == prefix;
    var m := ToLower(msg);
    assert m[10..15] == "fetch" by {
      forall k | 10 <= k < 15 ensures m[k] == "fetch"[k - 10] {
        assert msg[k] == prefix[k];
      }
    }
    assert OccursAt(m, "fetch", 10);
    ContainsAt(m, "fetch");
  }

  /** `errorConfig[type]`: the default title and message. */
  function DefaultTitle(t: ErrorType): string {
    match t
    case Network => "Connection Error"
    case Server => "Server Error"
    case NotFound => "Not Found"
    case Generic => "Something Went Wrong"
  }

  function DefaultMessage(t: ErrorType): string {
    match t
    case Network => "Unable to connect to the server. Please check your internet connection."
    case Server => "Something went wrong on our end. Please try again later."
    case NotFound => "The content you're looking for doesn't exist."
    case Generic => "An unexpected error occurred. Please try again."
  }

  /** What the view shows. */
  datatype Shown = Shown(kind: ErrorType, title: string, message: string)

  /** `a || b` for an optional string. */
  function OrText(s: Option<string>, fallback: string): string {
    if s.Some? && s.value != "" then s.value else fallback
  }

  /** `ErrorFallback({error, errorType, title, message})` */
  function Fallback(error: Option<JsError>, errorType: Option<ErrorType>, title: Option<string>, message: Option<string>): Shown {
    var kind := if errorType.Some? then errorType.value else GetErrorType(error);
    Shown(kind, OrText(title, DefaultTitle(kind)), OrText(message, DefaultMessage(kind)))
  }

  /**
   * An explicit type wins over classification and makes the error
   * irrelevant; a non-empty title or message wins over the type's default;
   * without overrides the title tells the type.
   */
  lemma FallbackOverrides(error: Option<JsError>, other: Option<JsError>, errorType: Option<ErrorType>,
                          title: Option<string>, message: Option<string>, t1: ErrorType, t2: ErrorType)
    ensures var v := Fallback(error, errorType, title, message);
      && (errorType.Some? ==> v.kind == errorType.value && v == Fallback(other, errorType, title, message))
      && (errorType.None? ==> v.kind == GetErrorType(error))
      && (title.Some? && title.value != "" ==> v.title == title.value)
      && (title.None? || title.value == "" ==> v.title == DefaultTitle(v.kind))
      && (message.Some? && message.value != "" ==> v.message == message.value)
      && (message.None? || message.value == "" ==> v.message == DefaultMessage(v.kind))
    ensures DefaultTitle(t1) == DefaultTitle(t2) <==> t1 == t2
  {
  }
}
