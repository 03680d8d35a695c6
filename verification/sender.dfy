/**
 * The notification sender: checks the credentials, builds the form body of the
 * Pushover request and turns the outcome of the HTTP call into a (success, text)
 * pair with fixed wording.
 */
module Sender {
  import opened Options

  const MessagesEndpoint := "https://api.pushover.net/1/messages.json"
  const CredentialsMissing := "User Key or API Token not set."
  const SentText := "Notification sent successfully!"
  const FailurePrefix := "Failed to send notification. Error: "

  /** What the HTTP POST did: it completed, or it raised an exception whose text is `description`. */
  datatype Transport = Completed | Raised(description: string)

  /** The request given to the transport: the endpoint and the form fields in order. */
  datatype Post = Post(url: string, form: seq<(string, string)>)

  /** One call of the sender: the request it posted (if it got that far) and the pair it returns. */
  datatype Attempt = Attempt(posted: Option<Post>, success: bool, text: string)

  /** What happened on a send, as a caller would like to know it. */
  datatype Cause = NotConfigured | Delivered | TransportFailed(description: string) | Unrecognised

  /** The value of the first form field called `name`. */
  function Lookup(form: seq<(string, string)>, name: string): Option<string>
    decreases |form|
  {
    if form == [] then None
    else if form[0].0 == name then Some(form[0].1)
    else Lookup(form[1..], name)
  }

  /** The form body: exactly the fields token, user and message, carrying the given strings. */
  function FormBody(userKey: string, apiToken: string, message: string): (form: seq<(string, string)>)
    ensures |form| == 3
    ensures Lookup(form, "token") == Some(apiToken)
    ensures Lookup(form, "user") == Some(userKey)
    ensures Lookup(form, "message") == Some(message)
    ensures forall name :: name != "token" && name != "user" && name != "message" ==> Lookup(form, name) == None
  {
    var form := [("token", apiToken), ("user", userKey), ("message", message)];
    assert form[1..][1..] == [("message", message)] && form[1..][1..][1..] == [];
    assert forall name :: Lookup(form[1..][1..], name) == if name == "message" then Some(message) else None;
    assert forall name :: name != "user" ==> Lookup(form[1..], name) == Lookup(form[1..][1..], name);
    assert forall name :: name != "token" ==> Lookup(form, name) == Lookup(form[1..], name);
    form
  }

  /**
   * The sender. Empty credentials stop it before any request is built; otherwise it
   * posts the form to the messages endpoint and classifies what the transport did.
   */
  function Send(userKey: string, apiToken: string, message: string, transport: Transport): (a: Attempt)
    ensures a.posted.None? <==> userKey == [] || apiToken == []
    ensures a.posted.Some? ==> a.posted.value.url == MessagesEndpoint
    ensures a.posted.Some? ==> Lookup(a.posted.value.form, "token") == Some(apiToken)
    ensures a.posted.Some? ==> Lookup(a.posted.value.form, "user") == Some(userKey)
    ensures a.posted.Some? ==> Lookup(a.posted.value.form, "message") == Some(message)
    ensures a.success <==> a.posted.Some? && transport.Completed?
    ensures a.posted.None? ==> a.text == CredentialsMissing
    ensures a.success ==> a.text == SentText
    ensures a.posted.Some? && transport.Raised? ==> a.text == FailurePrefix + transport.description
  {
    if userKey == [] || apiToken == [] then
      Attempt(None, false, CredentialsMissing)
    else
      var post := Post(MessagesEndpoint, FormBody(userKey, apiToken, message));
      match transport
      case Completed => Attempt(Some(post), true, SentText)
      case Raised(e) => Attempt(Some(post), false, FailurePrefix + e)
  }

  /** What a send should have ended in, read off its inputs. */
  function Expected(userKey: string, apiToken: string, transport: Transport): Cause
  {
    if userKey == [] || apiToken == [] then NotConfigured
    else if transport.Completed? then Delivered
    else TransportFailed(transport.description)
  }

  /** What a caller can tell from the returned pair alone. */
  function Diagnose(success: bool, text: string): Cause
  {
    if success then (if text == SentText then Delivered else Unrecognised)
    else if text == CredentialsMissing then NotConfigured
    else if |FailurePrefix| <= |text| && text[..|FailurePrefix|] == FailurePrefix then
      TransportFailed(text[|FailurePrefix|..])
    else Unrecognised
  }

  /**
   * The pair the sender returns identifies what happened: a missing credential, a
   * delivery, or a transport failure together with its exact description.
   */
  lemma SendIsDiagnosable(userKey: string, apiToken: string, message: string, transport: Transport)
    ensures Diagnose(Send(userKey, apiToken, message, transport).success,
                     Send(userKey, apiToken, message, transport).text)
            == Expected(userKey, apiToken, transport)
  {
    var a := Send(userKey, apiToken, message, transport);
    if userKey != [] && apiToken != [] && transport.Raised? {
      var d := transport.description;
      assert a.text == FailurePrefix + d;
      assert a.text[0] != CredentialsMissing[0];
      assert a.text[..|FailurePrefix|] == FailurePrefix;
      assert a.text[|FailurePrefix|..] == d;
    }
  }

  /** A failure reported after the request went out ends with the transport's own description. */
  lemma FailureQuotesCause(userKey: string, apiToken: string, message: string, d: string)
    requires userKey != [] && apiToken != []
    ensures var a := Send(userKey, apiToken, message, Raised(d));
            !a.success && |d| <= |a.text| && a.text[|a.text| - |d|..] == d
  {
    var a := Send(userKey, apiToken, message, Raised(d));
    assert a.text == FailurePrefix + d;
    assert a.text[|a.text| - |d|..] == d;
  }
}
