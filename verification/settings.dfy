/**
 * The per-scene property group of the add-on (PushoverNotifierProperties):
 * only the values the decision logic reads, with the defaults the add-on declares.
 */
module Settings {

  datatype NotifierProperties = NotifierProperties(
    isEnabled: bool,
    userKey: string,
    apiToken: string,
    messageFormat: string)

  /** The message template a fresh scene starts with. */
  const DefaultMessageFormat := "Blender render finished for: {file}"

  /** A fresh scene: notifications enabled, no credentials, the default template. */
  const Defaults := NotifierProperties(true, "", "", DefaultMessageFormat)
}
