/**
 * The laser reducer: how a dispatched action turns the previous laser state
 * into the next one.  The state is a plain object, modelled as a map from
 * keys to JSON-like values.
 */
module LaserReducer {
  import opened Wrappers

  /** A JavaScript value stored under a key of the state. */
  datatype Json =
    | JUndefined
    | JNull
    | JBool(b: bool)
    | JNumber(n: real)
    | JString(s: string)
    | JObject(fields: map<string, Json>)

  type State = map<string, Json>

  /** The actions the reducer distinguishes. */
  datatype Action =
    | UpdateState(changes: map<string, Json>)                    // ACTION_UPDATE_STATE, `action.state`
    | UpdateConfig(config: map<string, Json>)                    // ACTION_UPDATE_CONFIG, `action.config`
    | SetBackgroundEnabled(headType: Option<string>, enabled: Json)  // ACTION_SET_BACKGROUND_ENABLED
    | Unhandled(actionType: string)                              // any other type

  /** `state[key]`, `undefined` when the key is absent. */
  function Field(s: State, key: string): Json {
    if key in s then s[key] else JUndefined
  }

  /** The own properties an object spread `{ ...v }` copies; non-objects copy none. */
  function Spread(v: Json): map<string, Json> {
    if v.JObject? then v.fields else map[]
  }

  /** The action creator setBackgroundEnabled: it sets no `headType`. */
  function SetBackgroundEnabledAction(enabled: bool): Action {
    SetBackgroundEnabled(None, JBool(enabled))
  }

  /** reducer(state, action). */
  function Reduce(s: State, action: Action): (r: State)
    ensures action.UpdateState? ==>
      && r.Keys == s.Keys + action.changes.Keys
      && (forall k :: k in action.changes ==> r[k] == action.changes[k])
      && (forall k :: k in s && k !in action.changes ==> r[k] == s[k])
    ensures action.UpdateConfig? ==>
      && r.Keys == s.Keys + {"config"}
      && r["config"] == JObject(Spread(Field(s, "config")) + action.config)
      && (forall k :: k in s && k != "config" ==> r[k] == s[k])
    ensures action.SetBackgroundEnabled? && action.headType == Some("laser") ==> r == s
    ensures action.SetBackgroundEnabled? && action.headType != Some("laser") ==>
      && r.Keys == s.Keys + {"background"}
      && r["background"] == JObject(Spread(Field(s, "background"))["enabled" := action.enabled])
      && (forall k :: k in s && k != "background" ==> r[k] == s[k])
    ensures action.Unhandled? ==> r == s
  {
    match action
    case UpdateState(changes) => s + changes
    case UpdateConfig(config) => s["config" := JObject(Spread(Field(s, "config")) + config)]
    case SetBackgroundEnabled(headType, enabled) =>
      if headType == Some("laser") then s
      else s["background" := JObject(Spread(Field(s, "background"))["enabled" := enabled])]
    case Unhandled(_) => s
  }

  /** An update-config action keeps every configuration entry it does not name. */
  lemma UpdateConfigMerges(s: State, config: map<string, Json>, key: string)
    requires "config" in s && s["config"].JObject?
    requires key in s["config"].fields && key !in config
    ensures Reduce(s, UpdateConfig(config))["config"].fields[key] == s["config"].fields[key]
  {
  }

  /** Repeating an update-state action changes nothing more. */
  lemma UpdateStateIdempotent(s: State, changes: map<string, Json>)
    ensures Reduce(Reduce(s, UpdateState(changes)), UpdateState(changes)) == Reduce(s, UpdateState(changes))
  {
  }

  /** The action that setBackgroundEnabled creates always reaches the background,
      since it carries no head type; only `background.enabled` changes inside it. */
  lemma SetBackgroundEnabledCreatorApplies(s: State, enabled: bool, key: string)
    ensures var r := Reduce(s, SetBackgroundEnabledAction(enabled));
      && r["background"].fields["enabled"] == JBool(enabled)
      && (key != "enabled" && key in Spread(Field(s, "background")) ==>
            r["background"].fields[key] == Spread(Field(s, "background"))[key])
  {
  }
}
