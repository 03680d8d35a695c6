# Blender Pushover Notifier — a Dafny model of its decision logic

The Blender Pushover Notifier add-on sends a Pushover push notification when Blender
finishes a render. This project models the parts of the add-on whose behaviour
follows from its own code, once the network, the thread and the Blender host are
abstracted:

- **the sender** (`send_pushover_notification`, module `Sender`). It checks the
  credentials before any I/O. It builds the `token` / `user` / `message` form. It
  turns what the HTTP call did into a `(success, text)` pair with fixed wording. The
  HTTP call is an input: `Completed`, or `Raised(description)`, where the
  description is the exception's text.
- **the message template** (module `Template`). This is the part of Python's
  `str.format` that `message_format.format(file=name)` exercises: literal text, the
  `{{` / `}}` escapes, `{file}`, other keyword fields, positional fields and
  stray braces. It is read left to right and the first failure wins.
- **the render-complete handler** (`render_complete_handler`, module
  `Dispatcher`). It checks the enable flag and then online access. An empty base
  name becomes "Unsaved File". Formatting catches only `KeyError` and puts a fixed
  fallback message in its place. The handler starts one background send with the
  captured strings. It is a pure function with four outcomes: no send (and why),
  one send request, an uncaught formatting error, or a template outside the
  modelled grammar.
- **the test operator** (`PUSHOVER_OT_TestNotification`, module `TestTrigger`).
  `poll` allows the action only when online. `execute` sends the fixed test
  message, reports at INFO or ERROR with the sender's text, and returns
  `{'FINISHED'}`.
- **registration** (`register` / `unregister`, module `Registration`). A `Host`
  class holds the render-complete handler list, the calls made into the class
  registry, and whether the scene property exists. `Register` and `Unregister`
  are methods that change the host in place: classes are registered forwards and
  unregistered in reverse, and the handler is appended or removed behind a
  membership test.

The comment at BlenderPushoverNotifier.py:68 presents the `except` as a fallback for
any badly written template. The catch on line 67 is narrower than that: it names only
`KeyError`. So a positional field (`{}`, `{0}`) raises `IndexError`
out of the handler. A single `{` or `}` raises `ValueError` out of the handler, and
so does a field index too large for CPython to parse. In each case no thread
starts. The model follows the code: `Dispatcher.RenderComplete` returns `Escaped`
for these templates. `PositionalFieldEscapes`, `TrailingBraceEscapes` and
`OverlongIndexEscapes` prove it. The sender returns a `(bool, text)` tuple
(lines 20, 25, 39 and 43), and the model keeps that shape.

## Model

| member | source | states |
|---|---|---|
| `Sender.FormBody` | BlenderPushoverNotifier.py:28-32 | the form has exactly three fields: `token` carries the API token, `user` the user key, `message` the message; no other name is present |
| `Sender.Send` | BlenderPushoverNotifier.py:17-43 | nothing is posted iff a credential is empty, and then the text is "User Key or API Token not set."; otherwise the form goes to the messages endpoint; success iff posted and the transport completed, with "Notification sent successfully!"; a transport error gives "Failed to send notification. Error: " followed by its description |
| `Sender.SendIsDiagnosable` | BlenderPushoverNotifier.py:22-43 | the returned pair alone tells missing credentials, delivery and a transport failure apart, and recovers the failure's exact description |
| `Sender.FailureQuotesCause` | BlenderPushoverNotifier.py:40-43 | with credentials set, a transport failure is unsuccessful and its text ends with the transport's description |
| `Template.CloseIndex` | BlenderPushoverNotifier.py:66 | the end of a replacement field is the first `}` after its `{`, or the end of the template when there is none |
| `Template.LeadingDigits` | BlenderPushoverNotifier.py:66 | the leading run of ASCII digits of a field name, the part CPython reads as an index before it meets a non-digit |
| `Template.Field` | BlenderPushoverNotifier.py:66 | a field formats iff it is exactly `file`, giving the file name; ValueError iff its leading digits exceed 2^63 - 1; IndexError iff it is all digits within range (the empty name included); KeyError exactly for an unknown keyword, which is every other bare name |
| `Template.Format` | BlenderPushoverNotifier.py:66 | a KeyError raised while formatting always names an unknown keyword |
| `Template.FormatPiece` | BlenderPushoverNotifier.py:66 | a literal, `{{`, `}}` or `{file}` at the front formats as a character, a brace or the file name, and formatting continues after it |
| `Template.FormatSpelled` | BlenderPushoverNotifier.py:66 | a template that starts with plain pieces formats that prefix exactly as the pieces mean, then carries on with the rest |
| `Template.PlainTemplateFormats` | BlenderPushoverNotifier.py:66 | a template made only of literals, `{{`, `}}` and `{file}` formats with every `{file}` replaced by the file name and each escape halved |
| `Template.UnknownKeywordRaises` | BlenderPushoverNotifier.py:66-67 | after a plain prefix, `{key}` for a keyword other than `file` that is not all digits and whose leading digits are within range raises KeyError for that key, whatever follows |
| `Template.OverlongIndexRaises` | BlenderPushoverNotifier.py:66-67 | after a plain prefix, a field whose leading digits exceed 2^63 - 1 raises ValueError, even when other characters follow the digits |
| `Template.PositionalFieldRaises` | BlenderPushoverNotifier.py:66-67 | after a plain prefix, `{}` raises IndexError, whatever follows |
| `Template.TrailingBraceRaises` | BlenderPushoverNotifier.py:66-67 | a plain template ending in a single `{` raises ValueError |
| `Template.StrayCloseBraceRaises` | BlenderPushoverNotifier.py:66-67 | after a plain prefix, a `}` not followed by `}` raises ValueError |
| `Template.KeyErrorNamesField` | BlenderPushoverNotifier.py:66-69 | a KeyError names an unknown keyword that is written as a field `{key}` at some position in the template |
| `Dispatcher.FileName` | BlenderPushoverNotifier.py:60-62 | the name is never empty: an empty base name becomes exactly "Unsaved File", any other base name is kept |
| `Dispatcher.Fallback` | BlenderPushoverNotifier.py:70 | the fallback message is "Blender render finished for: ", then the file name, then " (Message format error)" |
| `Dispatcher.Compose` | BlenderPushoverNotifier.py:65-70 | a KeyError from formatting becomes the fallback message; every other outcome passes through unchanged, so no KeyError leaves the handler |
| `Dispatcher.RenderComplete` | BlenderPushoverNotifier.py:46-77 | no send iff disabled or offline (disabled wins); otherwise exactly one send starts iff composing succeeds, carrying the captured user key, token and composed message; the handler raises iff enabled, online and formatting fails with IndexError or ValueError, and the escaping error is exactly the formatting error; the outcome is undetermined iff enabled, online and the template lies outside the modelled grammar |
| `Dispatcher.BackgroundSend` | BlenderPushoverNotifier.py:73-77 | the thread's send posts the captured token, user key and message, and posts nothing iff a captured credential is empty |
| `Dispatcher.DisabledNeverPosts` | BlenderPushoverNotifier.py:53-55 | with the flag off, the event starts nothing and nothing reaches the network, for every online flag, file and transport |
| `Dispatcher.OfflineNeverPosts` | BlenderPushoverNotifier.py:56-58 | enabled but offline: nothing started, nothing posted |
| `Dispatcher.PlainTemplateStartsOneSend` | BlenderPushoverNotifier.py:60-77 | enabled, online, plain template: one send with the captured credentials and the template's meaning for the resolved name |
| `Dispatcher.UnknownKeywordFallsBack` | BlenderPushoverNotifier.py:65-77 | enabled, online, and an unknown keyword after a plain prefix (leading digits within range): one send carrying exactly the fallback message for the resolved name |
| `Dispatcher.OverlongIndexEscapes` | BlenderPushoverNotifier.py:65-67 | a field whose leading digits exceed 2^63 - 1, after a plain prefix, escapes the handler as ValueError: no send and no fallback |
| `Dispatcher.PositionalFieldEscapes` | BlenderPushoverNotifier.py:65-67 | a `{}` after a plain prefix escapes the handler as IndexError: no send and no fallback |
| `Dispatcher.TrailingBraceEscapes` | BlenderPushoverNotifier.py:65-67 | a single trailing `{` escapes the handler as ValueError: no send and no fallback |
| `Dispatcher.StartedMessageIsTemplateOrFallback` | BlenderPushoverNotifier.py:65-77 | any started send carries either the formatted template or the fallback, and the fallback only when the template holds an unknown keyword field |
| `Dispatcher.LeadThenFile` | BlenderPushoverNotifier.py:66 | a brace-free text followed by `{file}` formats as that text followed by the file name |
| `Dispatcher.DefaultTemplateMessage` | BlenderPushoverNotifier.py:101-105 | the default template formats to "Blender render finished for: " followed by the file name |
| `Dispatcher.FallbackExtendsDefault` | BlenderPushoverNotifier.py:70 | the fallback is the default template's message followed by " (Message format error)" |
| `Dispatcher.FreshSceneStopsAtCredentials` | BlenderPushoverNotifier.py:80-105 | with the declared defaults, an online render starts one send with the default message and empty credentials, and that send posts nothing and reports the credentials missing |
| `TestTrigger.Poll` | BlenderPushoverNotifier.py:114-120 | the action is allowed iff online; a refusal, and only a refusal, sets the notice "Blender is running in offline mode" |
| `TestTrigger.Execute` | BlenderPushoverNotifier.py:122-135 | one send of the fixed test message with the scene's credentials; INFO iff it succeeded, with the sender's text verbatim; the status is always {'FINISHED'} |
| `TestTrigger.Press` | BlenderPushoverNotifier.py:114-135 | a button press runs `execute` iff online |
| `TestTrigger.ReportMatchesCause` | BlenderPushoverNotifier.py:128-133 | the report is INFO iff both credentials are set and the transport completed, and its text identifies the cause, including a transport error's description |
| `TestTrigger.TestSendsFixedMessage` | BlenderPushoverNotifier.py:124-128 | whatever is posted carries the literal test message |
| `TestTrigger.ExecuteIgnoresTemplate` | BlenderPushoverNotifier.py:122-128 | two scenes with the same credentials give the same test run, whatever their template and enable flag |
| `Registration.FirstIndex` | BlenderPushoverNotifier.py:177 | for a list that holds the handler: a position where it stands, with no earlier copy |
| `Registration.RemoveFirst` | BlenderPushoverNotifier.py:177 | `list.remove`, defined only for a list that holds the handler (the source tests first): the result is the list with the first occurrence cut out, one shorter |
| `Registration.Subscribe` | BlenderPushoverNotifier.py:172-173 | after registering, the handler is on the list; a list that already holds it comes back unchanged, and otherwise the old list is kept as a prefix with the handler added once at the end |
| `Registration.Unsubscribe` | BlenderPushoverNotifier.py:176-177 | unregistering removes one entry if the handler is present, none otherwise |
| `Registration.Host.RegisterClass` | BlenderPushoverNotifier.py:170 | the registry receives one registration call for the class, after all earlier calls |
| `Registration.Host.UnregisterClass` | BlenderPushoverNotifier.py:180 | the registry receives one unregistration call for the class, after all earlier calls |
| `Registration.Host.AppendHandler` | BlenderPushoverNotifier.py:173 | the handler is added at the end of the list |
| `Registration.Host.RemoveHandler` | BlenderPushoverNotifier.py:177 | only a handler that is present may be removed; its first occurrence goes |
| `Registration.Reversed` | BlenderPushoverNotifier.py:179 | element k of the result is element \|cs\|-1-k of the input, and the lengths agree |
| `Registration.Register` | BlenderPushoverNotifier.py:168-173 | registers the three classes in declaration order, defines the scene property, and adds the handler only if absent |
| `Registration.Unregister` | BlenderPushoverNotifier.py:175-180 | removes the handler only if present, removes the scene property, and unregisters the classes in reverse declaration order |
| `Registration.SubscribeKeepsOneCopy` | BlenderPushoverNotifier.py:172-173 | if the handler was listed at most once, it is listed exactly once afterwards and the other handlers are unchanged |
| `Registration.SubscribeIdempotent` | BlenderPushoverNotifier.py:172-173 | a second registration leaves the handler list unchanged |
| `Registration.RemoveFirstKeepsOthers` | BlenderPushoverNotifier.py:177 | on a list that holds the handler, removal takes out one copy of the handler and keeps every other handler in the same order |
| `Registration.UnsubscribeRemovesHandler` | BlenderPushoverNotifier.py:176-177 | with at most one copy listed, unregistering leaves none and keeps the other handlers in the same order |
| `Registration.UnsubscribeUndoesSubscribe` | BlenderPushoverNotifier.py:172-177 | unregistering after registering restores a list that did not hold the handler |
| `Registration.TeardownMirrorsSetup` | BlenderPushoverNotifier.py:168-180 | registering the classes and then unregistering them in reverse always takes down the most recently registered class still up, and the registry ends where it began |
| `Registration.RegisterThenUnregister` | BlenderPushoverNotifier.py:168-180 | a full cycle restores the handler list and removes the scene property, and the registry calls it makes are properly nested |

## Left out

- The HTTP POST itself (`urllib.request.urlopen`, line 37) is network I/O. It is the `Transport` input. What a call raised is represented by the exception's text.
- The bytes that `urllib.parse.urlencode(...).encode('utf-8')` produces (line 35) are not modelled. The form is the ordered list of (name, value) pairs.
- The thread (lines 76-77) is left out as concurrency. The dispatcher returns the one request the thread would be started with, and `BackgroundSend` is that thread's work. The model does not show that the handler returns before the send completes.
- `bpy.path.basename` (line 60) belongs to the host. The base name is an input of `RenderComplete`.
- `bpy.app.online_access` is an input flag.
- `Dispatcher.RenderComplete` returns `Undetermined` for replacement fields with a conversion (`!r`), a format spec (`:>10`), attribute access, indexing or nested braces. The same goes for a field name with a non-ASCII character, because CPython treats Unicode decimal digits as positional indices. What `str.format` does with these is not modelled.
- The model assumes a 64-bit CPython build. A field name whose leading digits exceed 2^63 - 1 raises ValueError ("Too many decimal digits"), whether or not other characters follow the digits.
- `list.remove` on a list without the handler raises ValueError. `RemoveFirst` leaves that case out, because line 176 tests membership before line 177 removes.
- The `print` logging on every path, the `draw` method of the panel, and the `bl_info`, `bl_idname`, `bl_label` and `bl_options` metadata are not modelled. The property declarations are kept only for the values the logic reads and their defaults.
- `@bpy.app.handlers.persistent` is host behaviour and is not modelled.
- `bpy.utils.register_class`, `bpy.utils.unregister_class`, and defining or deleting `Scene.pushover_notifier` are recorded as calls or as a flag. Their own effects and failures are host behaviour and are not modelled, including registering twice and deleting a property that is absent.
- `Registration.TeardownMirrorsSetup` describes the order of the registry calls, not Blender's registry itself.
- The source reads the credentials from a Blender property group. The model does not treat them as secrets.
