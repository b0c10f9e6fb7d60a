/**
 * The plugin configuration object: the ids of the enabled plugins, in load
 * order, and optional per-plugin settings; and the configuration bundled
 * with the application.
 */
module PluginConfig {
  import opened PluginTypes

  /**
   * A configuration as the loaders read it. `enabled` is None when the
   * value under `enabled` is not an array (missing, or some other value);
   * `settings` is None when it is missing or falsy.
   */
  datatype Config = Config(enabled: Option<seq<string>>, settings: Option<map<string, Settings>>)

  /** The bundled configuration. */
  const DefaultConfig: Config := Config(
    Some(["analytics", "calendar", "canvas-display", "uploads"]),
    Some(map[
      "analytics" := map["refreshInterval" := Number(60000)],
      "calendar" := map["defaultView" := Text("month")]
    ]))

  /** `settings && settings[id]`: the settings entry for `id`, when there is one. */
  function SettingsFor(config: Config, id: string): (r: Option<Settings>)
    ensures r.Some? <==> config.settings.Some? && id in config.settings.value
    ensures r.Some? ==> r.value == config.settings.value[id]
  {
    match config.settings
    case None => None
    case Some(m) => if id in m then Some(m[id]) else None
  }

  /**
   * The bundled configuration enables four plugins in a fixed order, and
   * only the first two of them have settings.
   */
  lemma DefaultConfigShape()
    ensures DefaultConfig.enabled == Some(["analytics", "calendar", "canvas-display", "uploads"])
    ensures SettingsFor(DefaultConfig, "analytics") == Some(map["refreshInterval" := Number(60000)])
    ensures SettingsFor(DefaultConfig, "calendar") == Some(map["defaultView" := Text("month")])
    ensures SettingsFor(DefaultConfig, "canvas-display") == None
    ensures SettingsFor(DefaultConfig, "uploads") == None
  {
  }
}
