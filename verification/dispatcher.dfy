/**
 * The render-complete handler: the flag checks, the file-name fallback, the message
 * formatting with its KeyError fallback, and the one send request it hands to a
 * background thread. The thread is modelled by the request it is started with.
 */
module Dispatcher {
  import opened Options
  import opened Settings
  import opened Template
  import Sender

  const UnsavedFile := "Unsaved File"
  const FallbackLead := "Blender render finished for: "
  const FallbackNote := " (Message format error)"

  /** The strings the background thread is started with. */
  datatype SendRequest = SendRequest(userKey: string, apiToken: string, message: string)

  /** Why the handler returned without starting a send. */
  datatype Skip = Disabled | Offline

  /** What one render-complete event leads to. */
  datatype Dispatch =
    | NotSent(reason: Skip)                 // returned early; nothing started
    | Started(request: SendRequest)         // exactly one background send started
    | Escaped(error: FormatOutcome)         // formatting raised an error the handler does not catch
    | Undetermined                          // the template uses format features outside the model

  /** The name put into the message: the file's base name, or "Unsaved File" for a file never saved. */
  function FileName(baseName: string): (name: string)
    ensures name != []
    ensures baseName != [] ==> name == baseName
    ensures baseName == [] ==> name == UnsavedFile
  {
    if baseName == [] then UnsavedFile else baseName
  }

  /** The message used when the template names an unknown keyword. */
  function Fallback(name: string): (m: string)
    ensures |m| == |FallbackLead| + |name| + |FallbackNote|
    ensures m[..|FallbackLead|] == FallbackLead
    ensures m[|FallbackLead|..|FallbackLead| + |name|] == name
    ensures m[|FallbackLead| + |name|..] == FallbackNote
  {
    FallbackLead + name + FallbackNote
  }

  /** The formatting step with its handler: a KeyError becomes the fallback message, nothing else is caught. */
  function Compose(template: string, name: string): (r: FormatOutcome)
    ensures !r.KeyError?
    ensures Format(template, name).KeyError? ==> r == Formatted(Fallback(name))
    ensures !Format(template, name).KeyError? ==> r == Format(template, name)
  {
    match Format(template, name)
    case KeyError(_) => Formatted(Fallback(name))
    case other => other
  }

  /** The handler, given the scene's properties, the host's online-access flag and the file's base name. */
  function RenderComplete(props: NotifierProperties, online: bool, baseName: string): (d: Dispatch)
    ensures !props.isEnabled ==> d == NotSent(Disabled)
    ensures props.isEnabled && !online ==> d == NotSent(Offline)
    ensures d.Started? <==> props.isEnabled && online && Compose(props.messageFormat, FileName(baseName)).Formatted?
    ensures d.Started? ==> d.request.userKey == props.userKey && d.request.apiToken == props.apiToken
    ensures d.Started? ==> d.request.message == Compose(props.messageFormat, FileName(baseName)).text
    ensures d.NotSent? <==> !props.isEnabled || !online
    ensures d.Escaped? <==> (props.isEnabled && online
      && (Compose(props.messageFormat, FileName(baseName)).IndexError? || Compose(props.messageFormat, FileName(baseName)).ValueError?))
    ensures d.Escaped? ==> d.error == Format(props.messageFormat, FileName(baseName))
    ensures d.Escaped? ==> d.error.IndexError? || d.error.ValueError?
    ensures d.Undetermined? <==> props.isEnabled && online && Format(props.messageFormat, FileName(baseName)).OutsideSubset?
  {
    if !props.isEnabled then NotSent(Disabled)
    else if !online then NotSent(Offline)
    else
      var name := FileName(baseName);
      match Compose(props.messageFormat, name)
      case Formatted(message) => Started(SendRequest(props.userKey, props.apiToken, message))
      case OutsideSubset => Undetermined
      case e => Escaped(e)
  }

  /** The background thread: one call of the sender with the captured strings. */
  function BackgroundSend(request: SendRequest, transport: Sender.Transport): (a: Sender.Attempt)
    ensures a.posted.Some? ==> Sender.Lookup(a.posted.value.form, "token") == Some(request.apiToken)
    ensures a.posted.Some? ==> Sender.Lookup(a.posted.value.form, "user") == Some(request.userKey)
    ensures a.posted.Some? ==> Sender.Lookup(a.posted.value.form, "message") == Some(request.message)
    ensures a.posted.None? <==> request.userKey == [] || request.apiToken == []
  {
    Sender.Send(request.userKey, request.apiToken, request.message, transport)
  }

  /** Whether the event posts anything to the network, for a given transport outcome. */
  function Posts(props: NotifierProperties, online: bool, baseName: string, transport: Sender.Transport): bool
  {
    var d := RenderComplete(props, online, baseName);
    d.Started? && BackgroundSend(d.request, transport).posted.Some?
  }

  /** With notifications disabled nothing is started and nothing is posted, whatever else holds. */
  lemma DisabledNeverPosts(props: NotifierProperties, online: bool, baseName: string, transport: Sender.Transport)
    requires !props.isEnabled
    ensures RenderComplete(props, online, baseName) == NotSent(Disabled)
    ensures !Posts(props, online, baseName, transport)
  {
  }

  /** Enabled but offline: nothing is started and nothing is posted. */
  lemma OfflineNeverPosts(props: NotifierProperties, baseName: string, transport: Sender.Transport)
    requires props.isEnabled
    ensures RenderComplete(props, false, baseName) == NotSent(Offline)
    ensures !Posts(props, false, baseName, transport)
  {
  }

  /**
   * Enabled, online, and a template of literals, escapes and `{file}` fields: one send
   * is started with the captured credentials and every `{file}` replaced by the name.
   */
  lemma PlainTemplateStartsOneSend(props: NotifierProperties, baseName: string, ps: seq<Piece>)
    requires props.isEnabled && Plain(ps) && props.messageFormat == Spell(ps)
    ensures RenderComplete(props, true, baseName)
            == Started(SendRequest(props.userKey, props.apiToken, Expand(ps, FileName(baseName))))
  {
    PlainTemplateFormats(ps, FileName(baseName));
  }

  /**
   * Enabled, online, and a template whose first failing field is an unknown keyword:
   * one send is started, carrying the fallback message, which holds the file name.
   */
  lemma UnknownKeywordFallsBack(props: NotifierProperties, baseName: string, ps: seq<Piece>, key: string, rest: string)
    requires props.isEnabled && Plain(ps) && IsUnknownKeyword(key)
    requires props.messageFormat == Spell(ps) + "{" + key + "}" + rest
    ensures RenderComplete(props, true, baseName)
            == Started(SendRequest(props.userKey, props.apiToken, Fallback(FileName(baseName))))
  {
    UnknownKeywordRaises(ps, key, rest, FileName(baseName));
  }

  /**
   * A field whose leading digits exceed PY_SSIZE_T_MAX, after a plain prefix, escapes
   * the handler as ValueError even when letters follow the digits: no send, no fallback.
   */
  lemma OverlongIndexEscapes(props: NotifierProperties, baseName: string, ps: seq<Piece>, name: string, rest: string)
    requires props.isEnabled && Plain(ps) && !HasSpecial(name) && DecimalValue(LeadingDigits(name)) > SsizeMax
    requires forall i :: 0 <= i < |name| ==> name[i] != '}'
    requires props.messageFormat == Spell(ps) + "{" + name + "}" + rest
    ensures RenderComplete(props, true, baseName) == Escaped(ValueError)
  {
    OverlongIndexRaises(ps, name, rest, FileName(baseName));
  }

  /** A positional field `{}` after a plain prefix escapes the handler as IndexError: no send, no fallback. */
  lemma PositionalFieldEscapes(props: NotifierProperties, baseName: string, ps: seq<Piece>, rest: string)
    requires props.isEnabled && Plain(ps) && props.messageFormat == Spell(ps) + "{}" + rest
    ensures RenderComplete(props, true, baseName) == Escaped(IndexError)
  {
    PositionalFieldRaises(ps, rest, FileName(baseName));
  }

  /** A single `{` ending a plain template escapes the handler as ValueError: no send, no fallback. */
  lemma TrailingBraceEscapes(props: NotifierProperties, baseName: string, ps: seq<Piece>)
    requires props.isEnabled && Plain(ps) && props.messageFormat == Spell(ps) + "{"
    ensures RenderComplete(props, true, baseName) == Escaped(ValueError)
  {
    TrailingBraceRaises(ps, FileName(baseName));
  }

  /** Whatever the template, a started send carries either the formatted template or the fallback. */
  lemma StartedMessageIsTemplateOrFallback(props: NotifierProperties, baseName: string)
    requires RenderComplete(props, true, baseName).Started?
    ensures var m := RenderComplete(props, true, baseName).request.message;
            var name := FileName(baseName);
            Format(props.messageFormat, name) == Formatted(m)
            || (m == Fallback(name) && exists i :: FieldAt(props.messageFormat, i, Format(props.messageFormat, name).key))
  {
    var name := FileName(baseName);
    if Format(props.messageFormat, name).KeyError? {
      KeyErrorNamesField(props.messageFormat, name);
    }
  }

  /** A brace-free lead followed by `{file}` formats as the lead followed by the name. */
  lemma LeadThenFile(lead: string, name: string)
    requires forall i :: 0 <= i < |lead| ==> lead[i] != '{' && lead[i] != '}'
    ensures Format(lead + "{file}", name) == Formatted(lead + name)
  {
    LiteralsMeanThemselves(lead, name);
    var ps := Literals(lead);
    FormatSpelled(ps, "{file}", name);
    FormatPiece(FileField, [], name);
    assert SpellPiece(FileField) + [] == "{file}";
    assert Format([], name) == Formatted([]);
    assert name + [] == name;
  }

  /**
   * The default template is the fallback's lead followed by one `{file}` field.
   * The lead comes in as a parameter pinned by `requires` so that callers reason
   * about `lead + "{file}"` rather than unfolding `Format` on a string literal.
   */
  lemma DefaultTemplateShape(lead: string)
    requires lead == FallbackLead
    ensures DefaultMessageFormat == lead + "{file}"
    ensures forall i :: 0 <= i < |lead| ==> lead[i] != '{' && lead[i] != '}'
  {
  }

  /** The default template reads "Blender render finished for: " followed by the file name. */
  lemma DefaultTemplateMessage(name: string)
    ensures Format(DefaultMessageFormat, name) == Formatted(FallbackLead + name)
  {
    DefaultTemplateShape(FallbackLead);
    LeadThenFile(FallbackLead, name);
  }

  /** The fallback message is the default template's message with a note about the format error. */
  lemma FallbackExtendsDefault(name: string)
    ensures Format(DefaultMessageFormat, name).Formatted?
    ensures Fallback(name) == Format(DefaultMessageFormat, name).text + FallbackNote
  {
    DefaultTemplateMessage(name);
  }

  /**
   * A fresh scene on an online host: the render event starts one send with the default
   * message, and that send stops at the credential check without posting.
   */
  lemma FreshSceneStopsAtCredentials(baseName: string, transport: Sender.Transport)
    ensures RenderComplete(Defaults, true, baseName)
            == Started(SendRequest("", "", FallbackLead + FileName(baseName)))
    ensures BackgroundSend(RenderComplete(Defaults, true, baseName).request, transport)
            == Sender.Attempt(None, false, Sender.CredentialsMissing)
  {
    DefaultTemplateMessage(FileName(baseName));
  }
}
