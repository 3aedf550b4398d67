/// The session state of the app (`st.session_state`) and its set-if-absent
/// initialisation, `init_session_key` / `init_session_keys` of nota_bene/utils.py.
module Session {
  import opened Outcomes
  import opened Disk
  import opened Paths

  /// The kinds of value the pipeline keeps in the session.
  datatype Value =
    | Null                              // None
    | Str(s: string)                    // a str
    | StrList(items: seq<string>)       // a list of str
    | Audio(data: Content)              // a BytesIO buffer over a file's contents
    | Clips(clips: map<string, Bytes>)  // a dict from name to audio bytes

  type State = map<string, Value>

  /// `init_session_key`: the default goes in only when the key is absent.
  function SetDefault(state: State, key: string, default: Value): (r: State)
    ensures r.Keys == state.Keys + {key}
    ensures forall k :: k in state ==> r[k] == state[k]
    ensures key !in state ==> r[key] == default
  {
    if key in state then state else state[key := default]
  }

  /// Setting a default a second time, whatever that default, changes nothing.
  lemma SetDefaultIdempotent(state: State, key: string, first: Value, second: Value)
    ensures SetDefault(SetDefault(state, key, first), key, second) == SetDefault(state, key, first)
  {
  }

  /// `init_session_key` applied to each (key, default) pair in turn.
  function SetDefaults(state: State, defaults: seq<(string, Value)>): State
    decreases |defaults|
  {
    if |defaults| == 0 then state
    else SetDefaults(SetDefault(state, defaults[0].0, defaults[0].1), defaults[1..])
  }

  /// The keys a list of defaults initialises.
  function DefaultKeys(defaults: seq<(string, Value)>): set<string> {
    set d | d in defaults :: d.0
  }

  /// After initialisation every key is present, the keys that were there keep
  /// their values, and no other key appears.
  lemma {:induction false} SetDefaultsKeeps(state: State, defaults: seq<(string, Value)>)
    ensures SetDefaults(state, defaults).Keys == state.Keys + DefaultKeys(defaults)
    ensures forall k :: k in state ==> SetDefaults(state, defaults)[k] == state[k]
    decreases |defaults|
  {
    if |defaults| > 0 {
      var next := SetDefault(state, defaults[0].0, defaults[0].1);
      SetDefaultsKeeps(next, defaults[1..]);
      assert defaults == [defaults[0]] + defaults[1..];
      assert DefaultKeys(defaults) == {defaults[0].0} + DefaultKeys(defaults[1..]);
    }
  }

  /// When every key is already present, initialisation changes nothing.
  lemma {:induction false} SetDefaultsPresent(state: State, defaults: seq<(string, Value)>)
    requires forall i :: 0 <= i < |defaults| ==> defaults[i].0 in state
    ensures SetDefaults(state, defaults) == state
    decreases |defaults|
  {
    if |defaults| > 0 {
      SetDefaultsPresent(state, defaults[1..]);
    }
  }

  /// Initialising twice is initialising once.
  lemma SetDefaultsIdempotent(state: State, defaults: seq<(string, Value)>)
    ensures SetDefaults(SetDefaults(state, defaults), defaults) == SetDefaults(state, defaults)
  {
    SetDefaultsKeeps(state, defaults);
    var once := SetDefaults(state, defaults);
    forall i | 0 <= i < |defaults| ensures defaults[i].0 in once {
      assert defaults[i] in defaults;
    }
    SetDefaultsPresent(once, defaults);
  }

  /// The directory `init_session_keys` stores under `temp_dir`.
  function TempDir(systemTemp: string): string {
    Join(systemTemp, "notabena")
  }

  /// The app's secrets, `st.secrets`: tables of named strings.
  type Secrets = map<string, map<string, string>>

  /// `st.secrets["openai"]["key"]`: the first missing level raises KeyError for its name.
  function OpenAIKey(secrets: Secrets): (r: Py<string>)
    ensures "openai" !in secrets ==> r == Raised(KeyError("openai"))
    ensures "openai" in secrets && "key" !in secrets["openai"] ==> r == Raised(KeyError("key"))
    ensures r.Ok? <==> "openai" in secrets && "key" in secrets["openai"]
    ensures r.Ok? ==> r.value == secrets["openai"]["key"]
  {
    if "openai" !in secrets then Raised(KeyError("openai"))
    else if "key" !in secrets["openai"] then Raised(KeyError("key"))
    else Ok(secrets["openai"]["key"])
  }

  /// The first four defaults of `init_session_keys`, set before the secret is read.
  function EarlyDefaults(prompt: string): seq<(string, Value)> {
    [("audio", Null), ("transcript", Null), ("model", Str("gpt-4o-mini")), ("prompt", Str(prompt))]
  }

  /// The remaining defaults, from the API key on.
  function LateDefaults(systemTemp: string, apiKey: string): seq<(string, Value)> {
    KeyDefaults(systemTemp, apiKey) + StoreDefaults()
  }

  /// The API key, the minutes, the temporary directory and the audio path.
  function KeyDefaults(systemTemp: string, apiKey: string): seq<(string, Value)> {
    [ ("openai_api_key", Str(apiKey)), ("minutes", Null), ("temp_dir", Str(TempDir(systemTemp))),
      ("audio_filepath", Null) ]
  }

  /// The endpoints, the recordings and the bitrate.
  function StoreDefaults(): seq<(string, Value)> {
    [ ("endpoints", StrList(["http://localhost:1234/v1/chat/completions", "http://localhost:11434/api/generate"])),
      ("endpoint", Null), ("audio_recording", Clips(map[])), ("audio_order", StrList([])),
      ("bitrate", Str("24k")) ]
  }

  /// Python's truth value of a session value.
  predicate IsTruthy(v: Value) {
    match v
    case Null => false
    case Str(t) => t != ""
    case StrList(items) => |items| > 0
    case Audio(_) => true
    case Clips(clips) => |clips| > 0
  }

  /// `st.session_state[key]` used as a string (a directory, a bitrate):
  /// KeyError when absent; any value other than a str is taken to raise TypeError.
  function StrEntry(state: State, key: string): (r: Py<string>)
    ensures r.Ok? <==> key in state && state[key].Str?
    ensures r.Ok? ==> r.value == state[key].s
    ensures key !in state ==> r == Raised(KeyError(key))
  {
    if key !in state then Raised(KeyError(key))
    else match state[key]
      case Str(v) => Ok(v)
      case _ => Raised(TypeError)
  }

  /// `st.session_state[key]` used as an optional path: None or a str.
  function PathEntry(state: State, key: string): (r: Py<Option<string>>)
    ensures key !in state ==> r == Raised(KeyError(key))
    ensures key in state && state[key] == Null ==> r == Ok(None)
    ensures key in state && state[key].Str? ==> r == Ok(Some(state[key].s))
    ensures r.Ok? <==> key in state && (state[key] == Null || state[key].Str?)
  {
    if key !in state then Raised(KeyError(key))
    else match state[key]
      case Null => Ok(None)
      case Str(v) => Ok(Some(v))
      case _ => Raised(TypeError)
  }

  class SessionState {
    var entries: State

    constructor ()
      ensures entries == map[]
    {
      entries := map[];
    }

    /// `init_session_key(key, default_value)`.
    method InitSessionKey(key: string, default: Value)
      modifies this
      ensures entries == SetDefault(old(entries), key, default)
    {
      if key !in entries {
        entries := entries[key := default];
      }
    }

    /// `init_session_keys()`. The secret `openai.key` is read as an argument of
    /// the fifth call whether or not that key is present, so a missing table or
    /// entry raises KeyError after the first four keys are set.
    method InitSessionKeys(systemTemp: string, prompt: string, secrets: Secrets) returns (r: Py<()>)
      modifies this
      ensures OpenAIKey(secrets).Raised? ==> (r == Raised(OpenAIKey(secrets).error)
                                && entries == SetDefaults(old(entries), EarlyDefaults(prompt)))
      ensures OpenAIKey(secrets).Ok? ==> (r == Ok(())
                                && entries == SetDefaults(old(entries), EarlyDefaults(prompt) + LateDefaults(systemTemp, OpenAIKey(secrets).value)))
    {
      ghost var start := entries;
      InitEarlyKeys(prompt);
      var apiKey := OpenAIKey(secrets);
      if apiKey.Raised? {
        return Raised(apiKey.error);
      }
      InitLateKeys(systemTemp, apiKey.value);
      SetDefaultsAppend(start, EarlyDefaults(prompt), LateDefaults(systemTemp, apiKey.value));
      r := Ok(());
    }

    /// The four calls of `init_session_keys` before the secret is read.
    method InitEarlyKeys(prompt: string)
      modifies this
      ensures entries == SetDefaults(old(entries), EarlyDefaults(prompt))
    {
      ghost var start := entries;
      ghost var done: seq<(string, Value)> := [];
      done := InitNext(start, done, "audio", Null);
      done := InitNext(start, done, "transcript", Null);
      done := InitNext(start, done, "model", Str("gpt-4o-mini"));
      done := InitNext(start, done, "prompt", Str(prompt));
      assert done == EarlyDefaults(prompt);
    }

    /// The calls of `init_session_keys` from the API key on.
    method InitLateKeys(systemTemp: string, apiKey: string)
      modifies this
      ensures entries == SetDefaults(old(entries), LateDefaults(systemTemp, apiKey))
    {
      ghost var start := entries;
      InitKeyDefaults(systemTemp, apiKey);
      InitStoreDefaults();
      SetDefaultsAppend(start, KeyDefaults(systemTemp, apiKey), StoreDefaults());
    }

    /// The calls for the API key, the minutes, the temporary directory and the audio path.
    method InitKeyDefaults(systemTemp: string, apiKey: string)
      modifies this
      ensures entries == SetDefaults(old(entries), KeyDefaults(systemTemp, apiKey))
    {
      ghost var start := entries;
      ghost var done: seq<(string, Value)> := [];
      done := InitNext(start, done, "openai_api_key", Str(apiKey));
      done := InitNext(start, done, "minutes", Null);
      done := InitNext(start, done, "temp_dir", Str(TempDir(systemTemp)));
      done := InitNext(start, done, "audio_filepath", Null);
      assert done == KeyDefaults(systemTemp, apiKey);
    }

    /// The calls for the endpoints, the recordings and the bitrate.
    method InitStoreDefaults()
      modifies this
      ensures entries == SetDefaults(old(entries), StoreDefaults())
    {
      ghost var start := entries;
      ghost var done: seq<(string, Value)> := [];
      done := InitNext(start, done, "endpoints", StrList(["http://localhost:1234/v1/chat/completions", "http://localhost:11434/api/generate"]));
      done := InitNext(start, done, "endpoint", Null);
      done := InitNext(start, done, "audio_recording", Clips(map[]));
      done := InitNext(start, done, "audio_order", StrList([]));
      done := InitNext(start, done, "bitrate", Str("24k"));
      assert done == StoreDefaults();
    }

    /// One `init_session_key` call of `init_session_keys`, with the calls made so far.
    method InitNext(ghost start: State, ghost done: seq<(string, Value)>, key: string, default: Value)
      returns (ghost done': seq<(string, Value)>)
      requires entries == SetDefaults(start, done)
      modifies this
      ensures done' == done + [(key, default)]
      ensures entries == SetDefaults(start, done')
    {
      InitSessionKey(key, default);
      done' := done + [(key, default)];
      SetDefaultsAppend(start, done, [(key, default)]);
    }
  }

  lemma {:induction false} SetDefaultsAppend(state: State, first: seq<(string, Value)>, second: seq<(string, Value)>)
    ensures SetDefaults(state, first + second) == SetDefaults(SetDefaults(state, first), second)
    decreases |first|
  {
    if |first| == 0 {
      assert first + second == second;
    } else {
      assert (first + second)[0] == first[0];
      assert (first + second)[1..] == first[1..] + second;
      SetDefaultsAppend(SetDefault(state, first[0].0, first[0].1), first[1..], second);
    }
  }
}
