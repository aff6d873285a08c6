/** Secrets from the environment (cogtrix_core/config.py): read once, cached for the process, dropped from
    the inheritable environment, and still resolved by every later load. */
module SecretCache {
  import opened Options
  import opened Text

  /** `ConfigError` is a `<name>_FILE` that is unreadable or empty. */
  datatype Found = Ok(secret: Option<string>) | ConfigError

  type Env = map<string, string>

  // ---------------------------------------------------------------------------------------------
  // Names
  // ---------------------------------------------------------------------------------------------

  /** Where a secret ends up in the configuration. */
  datatype Slot = Provider(name: string) | Service(name: string)
  datatype Entry = Entry(slot: Slot, variable: string)

  const PROVIDER_ENTRIES: seq<Entry> :=
    [Entry(Provider("openai"), "OPENAI_API_KEY"), Entry(Provider("anthropic"), "ANTHROPIC_API_KEY"),
     Entry(Provider("google"), "GEMINI_API_KEY"), Entry(Provider("groq"), "GROQ_API_KEY"),
     Entry(Provider("xai"), "XAI_API_KEY"), Entry(Provider("deepseek"), "DEEPSEEK_API_KEY")]

  const SERVICE_ENTRIES: seq<Entry> :=
    [Entry(Service("openweather"), "OPENWEATHER_API_KEY"), Entry(Service("tavily"), "TAVILY_API_KEY"),
     Entry(Service("exa"), "EXA_API_KEY"), Entry(Service("brave"), "BRAVE_API_KEY"),
     Entry(Service("serpapi"), "SERPAPI_API_KEY"), Entry(Service("google"), "GOOGLE_API_KEY"),
     Entry(Service("whatsapp"), "COGTRIX_WHATSAPP_API_KEY"), Entry(Service("telegram"), "COGTRIX_TELEGRAM_TOKEN"),
     Entry(Service("slack"), "COGTRIX_SLACK_BOT_TOKEN")]

  /** `_SECRETS_SEED_BEFORE_UNSET`. */
  const SEEDED := "COGTRIX_JWT_SECRET"

  /** `_SECRETS_UNSET_AFTER_READ`, in three parts. */
  const UNSET_PROVIDERS: set<string> :=
    {"OPENAI_API_KEY", "ANTHROPIC_API_KEY", "GEMINI_API_KEY", "GROQ_API_KEY", "XAI_API_KEY", "DEEPSEEK_API_KEY"}

  const UNSET_SERVICES: set<string> :=
    {"TAVILY_API_KEY", "EXA_API_KEY", "BRAVE_API_KEY", "SERPAPI_API_KEY", "GOOGLE_API_KEY", "OPENWEATHER_API_KEY",
     "COGTRIX_WHATSAPP_API_KEY", "COGTRIX_TELEGRAM_TOKEN", "COGTRIX_SLACK_BOT_TOKEN"}

  const UNSET_AFTER_READ: set<string> := UNSET_PROVIDERS + UNSET_SERVICES + {"COGTRIX_JWT_SECRET"}

  const KEY_PREFIX := "COGTRIX_PROVIDER_"
  const KEY_SUFFIX := "_API_KEY"

  /** What `$` leaves of a name: it also matches before one final newline. */
  function Core(name: string): string { if EndsWith(name, "\n") then name[..|name| - 1] else name }

  /** `^COGTRIX_PROVIDER_(?P<name>.+)_API_KEY$`. */
  predicate IsProviderKey(name: string) {
    var core := Core(name);
    StartsWith(core, KEY_PREFIX) && EndsWith(core, KEY_SUFFIX) && |core| > |KEY_PREFIX| + |KEY_SUFFIX| &&
    '\n' !in core[|KEY_PREFIX|..|core| - |KEY_SUFFIX|]
  }

  /** The provider a generic key is for. */
  function ProviderOf(name: string): string
    requires IsProviderKey(name)
  {
    var core := Core(name);
    Lower(core[|KEY_PREFIX|..|core| - |KEY_SUFFIX|])
  }

  predicate Sensitive(name: string) { name in UNSET_AFTER_READ || IsProviderKey(name) }

  function Get(env: Env, name: string): string { if name in env then env[name] else "" }

  /** `_keep_env_secrets`. */
  predicate KeepSecrets(env: Env) { Lower(Strip(Get(env, "COGTRIX_KEEP_ENV_SECRETS"))) in ["1", "true", "yes"] }

  // ---------------------------------------------------------------------------------------------
  // Reading one secret
  // ---------------------------------------------------------------------------------------------

  /** Exactly one trailing newline is trimmed. */
  function TrimNewline(raw: string): string {
    if EndsWith(raw, "\r\n") then raw[..|raw| - 2]
    else if EndsWith(raw, "\n") then raw[..|raw| - 1] else raw
  }

  /** `_read_secret_from_file`; `files` are the readable files. */
  function FromFile(env: Env, files: map<string, string>, name: string): Found {
    var path := Get(env, FileVar(name));
    if path == "" then Ok(None)
    else if path !in files || TrimNewline(files[path]) == "" then ConfigError
    else Ok(Some(TrimNewline(files[path])))
  }

  /** `v` is the text `raw` without one line end after it. */
  predicate Trims(raw: string, v: string) {
    raw == v + "\r\n" || (raw == v + "\n" && !EndsWith(v, "\r")) || (raw == v && !EndsWith(v, "\n"))
  }

  /** What a secret file answers: nothing when none is named, an error when it cannot be read or holds nothing but a
      line end, and otherwise its text without one. */
  predicate FileAnswers(env: Env, files: map<string, string>, name: string, f: Found) {
    var path := Get(env, name + "_FILE");
    if path == "" then f == Ok(None)
    else if path !in files || files[path] in {"", "\n", "\r\n"} then f == ConfigError
    else f.Ok? && f.secret.Some? && f.secret.value != "" && Trims(files[path], f.secret.value)
  }

  lemma TrimsOneLineEnd(raw: string)
    ensures Trims(raw, TrimNewline(raw)) && (TrimNewline(raw) == "" <==> raw in {"", "\n", "\r\n"})
  {
    var n := |raw|;
    if EndsWith(raw, "\r\n") {
      assert raw == raw[..n - 2] + "\r\n";
    } else if EndsWith(raw, "\n") {
      assert raw == raw[..n - 1] + "\n";
    }
  }

  /** What `_secret_env` returns: the live value, else the cached one, else the file's. */
  function Lookup(env: Env, cache: Env, files: map<string, string>, name: string): (f: Found)
    ensures f.Ok? && f.secret.Some? ==> f.secret.value != ""
  {
    if Get(env, name) != "" then Ok(Some(env[name]))
    else if Get(cache, name) != "" then Ok(Some(cache[name]))
    else FromFile(env, files, name)
  }

  /** What every secret name would resolve to, at one moment. */
  type Look = imap<string, Found>

  ghost function Looks(env: Env, cache: Env, files: map<string, string>): Look {
    imap n: string :: Lookup(env, cache, files, n)
  }

  ghost predicate Finds(look: Look, name: string, v: string) { name in look && look[name] == Ok(Some(v)) }

  ghost predicate FindsAny(look: Look, name: string) { name in look && look[name].Ok? && look[name].secret.Some? }

  /** The cache once the secrets `names` have been looked up: each one that resolved is in it. */
  ghost function Absorb(look: Look, cache: Env, names: set<string>): Env { cache + Secrets(look, names) }

  /** Those of `names` that resolve, with their values. */
  ghost function Secrets(look: Look, names: set<string>): (found: Env)
    ensures forall n :: n in found <==> n in names && FindsAny(look, n)
    ensures forall n :: n in found ==> Finds(look, n, found[n])
    decreases names
  {
    if names == {} then map[]
    else
      var n :| n in names;
      var others := Secrets(look, names - {n});
      if FindsAny(look, n) then others[n := look[n].secret.value] else others
  }

  /** Having looked up other secrets first, or the same one, changes no answer, so the order does not matter. */
  lemma AbsorbKeepsLookups(env: Env, cache: Env, files: map<string, string>, names: set<string>)
    ensures var look := Looks(env, cache, files); Looks(env, Absorb(look, cache, names), files) == look
  {
    var look := Looks(env, cache, files);
    var later := Absorb(look, cache, names);
    forall n: string ensures Lookup(env, later, files, n) == Lookup(env, cache, files, n) {
      assert look[n] == Lookup(env, cache, files, n);
    }
  }

  lemma AbsorbOneMore(look: Look, cache: Env, names: set<string>, n: string)
    ensures Absorb(look, Absorb(look, cache, names), {n}) == Absorb(look, cache, names + {n})
  {
  }

  // ---------------------------------------------------------------------------------------------
  // Which secrets a load reads
  // ---------------------------------------------------------------------------------------------

  /** `"<name>_FILE"`. */
  function FileVar(name: string): string { name + "_FILE" }

  predicate IsFileVar(name: string) { EndsWith(name, "_FILE") }

  function Base(name: string): (base: string)
    requires IsFileVar(name)
    ensures FileVar(base) == name
  {
    name[..|name| - 5]
  }

  lemma BaseOfFileVar(name: string)
    ensures IsFileVar(FileVar(name)) && Base(FileVar(name)) == name
  {
  }

  /** Names whose generic provider key can be found: live, cached, or through a `_FILE` entry. */
  predicate IsGeneric(env: Env, cache: Env, name: string) {
    IsProviderKey(name) && (name in env || name in cache || FileVar(name) in env)
  }

  function GenericNames(env: Env, cache: Env): (names: set<string>)
    ensures forall n :: n in names <==> IsGeneric(env, cache, n)
  {
    var based := set v | v in env && IsFileVar(v) :: Base(v);
    assert forall n :: n in based <==> FileVar(n) in env by {
      forall n { BaseOfFileVar(n); }
    }
    set n | n in env.Keys + cache.Keys + based && IsProviderKey(n)
  }

  function Variables(entries: seq<Entry>): set<string> { set e | e in entries :: e.variable }

  predicate Unsetting(env: Env, unsetSecrets: bool) { unsetSecrets && !KeepSecrets(env) }

  /** Every secret one load looks up. */
  function NamesRead(env: Env, cache: Env, unsetSecrets: bool): set<string> {
    Variables(PROVIDER_ENTRIES) + GenericNames(env, cache) + Variables(SERVICE_ENTRIES) +
    if Unsetting(env, unsetSecrets) then {SEEDED} else {}
  }

  ghost predicate AllReadable(look: Look, names: set<string>) {
    forall n :: n in names ==> n in look && look[n].Ok?
  }

  /** `_unset_sensitive_env`. */
  function Unset(env: Env): Env { env - set n | n in env && Sensitive(n) }

  lemma EntriesAreNotGeneric()
    ensures forall e :: e in PROVIDER_ENTRIES ==> !IsProviderKey(e.variable)
  {
    forall e | e in PROVIDER_ENTRIES ensures !IsProviderKey(e.variable) {
      if EndsWith(e.variable, "\n") { EndsWithLast(e.variable, "\n"); }
      if StartsWith(e.variable, KEY_PREFIX) { StartsWithFirst(e.variable, KEY_PREFIX); }
    }
  }

  lemma ProviderNamesAreRead()
    ensures UNSET_PROVIDERS <= Variables(PROVIDER_ENTRIES)
  {
    var es := PROVIDER_ENTRIES;
    assert es[0] in es && es[1] in es && es[2] in es && es[3] in es && es[4] in es && es[5] in es;
  }

  lemma ServiceNamesAreRead()
    ensures UNSET_SERVICES <= Variables(SERVICE_ENTRIES)
  {
    var es := SERVICE_ENTRIES;
    assert es[0] in es && es[1] in es && es[2] in es && es[3] in es && es[4] in es && es[5] in es && es[6] in es && es[7] in es && es[8] in es;
  }

  /** Every variable the loader unsets is one it has read. */
  lemma UnsetNamesAreRead(env: Env, cache: Env, n: string)
    requires Sensitive(n) && n in env && !KeepSecrets(env)
    ensures n in NamesRead(env, cache, true)
  {
    ProviderNamesAreRead();
    ServiceNamesAreRead();
  }

  lemma FileVarsAreKept(name: string)
    ensures !Sensitive(FileVar(name))
  {
    var v := FileVar(name);
    assert v[|v| - 1] == 'E';
    assert forall n :: n in UNSET_AFTER_READ ==> n[|n| - 1] != 'E';
    if EndsWith(v, "\n") { EndsWithLast(v, "\n"); }
    if EndsWith(v, KEY_SUFFIX) { EndsWithLast(v, KEY_SUFFIX); }
  }

  // ---------------------------------------------------------------------------------------------
  // What a load puts into the configuration
  // ---------------------------------------------------------------------------------------------

  type Config = map<Slot, string>

  function Value(config: Config, slot: Slot): Option<string> {
    if slot in config then Some(config[slot]) else None
  }

  /** The well-known variables, in order: each one that resolves sets its slot. */
  ghost function Assign(config: Config, entries: seq<Entry>, look: Look): Config {
    if entries == [] then config
    else
      var e := entries[|entries| - 1];
      var earlier := Assign(config, entries[..|entries| - 1], look);
      if FindsAny(look, e.variable) then earlier[e.slot := look[e.variable].secret.value] else earlier
  }

  /** Some generic key among `names` gives `slot` the value `v`. */
  ghost predicate GenericSets(look: Look, names: set<string>, slot: Slot, v: string) {
    exists n :: n in names && IsProviderKey(n) && slot == Provider(ProviderOf(n)) && Finds(look, n, v)
  }

  /** Generic keys win over what `base` had; two keys for one provider leave either value. */
  ghost predicate Overridden(look: Look, names: set<string>, base: Config, config: Config, slot: Slot) {
    if exists v :: GenericSets(look, names, slot, v)
    then slot in config && GenericSets(look, names, slot, config[slot])
    else Value(config, slot) == Value(base, slot)
  }

  ghost predicate AllOverridden(look: Look, names: set<string>, base: Config, config: Config) {
    forall slot :: Overridden(look, names, base, config, slot)
  }

  /** The configuration one load produces from `base`, the configuration file's. */
  ghost predicate Configures(look: Look, generic: set<string>, base: Config, config: Config) {
    AllOverridden(look, generic, Assign(Assign(base, PROVIDER_ENTRIES, look), SERVICE_ENTRIES, look), config)
  }

  lemma {:induction false} AssignAt(config: Config, other: Config, entries: seq<Entry>, look: Look, slot: Slot)
    ensures (forall e :: e in entries ==> e.slot != slot) ==> Value(Assign(config, entries, look), slot) == Value(config, slot)
    ensures Value(config, slot) == Value(other, slot) ==>
      Value(Assign(config, entries, look), slot) == Value(Assign(other, entries, look), slot)
  {
    if entries != [] {
      AssignAt(config, other, entries[..|entries| - 1], look, slot);
    }
  }

  /** The service keys read after the generic keys leave the provider slots alone. */
  lemma ServicesKeepProviders(look: Look, names: set<string>, base: Config, mid: Config, entries: seq<Entry>)
    requires AllOverridden(look, names, base, mid)
    requires forall e :: e in entries ==> e.slot.Service?
    ensures AllOverridden(look, names, Assign(base, entries, look), Assign(mid, entries, look))
  {
    forall slot ensures Overridden(look, names, Assign(base, entries, look), Assign(mid, entries, look), slot) {
      assert Overridden(look, names, base, mid, slot);
      AssignAt(mid, base, entries, look, slot);
    }
  }

  // ---------------------------------------------------------------------------------------------
  // The order of the generic keys
  // ---------------------------------------------------------------------------------------------

  /** The configuration after one lookup that found `f`. */
  function With(config: Config, slot: Slot, f: Found): Config {
    if f.Ok? && f.secret.Some? then config[slot := f.secret.value] else config
  }

  /** The generic keys read one after the other, each overriding its provider's slot. */
  ghost function InOrder(config: Config, order: seq<string>, look: Look): Config {
    if order == [] then config
    else
      var n, earlier := order[|order| - 1], InOrder(config, order[..|order| - 1], look);
      if IsProviderKey(n) && n in look then With(earlier, Provider(ProviderOf(n)), look[n]) else earlier
  }

  /** `order` lists `names`, each once. */
  ghost predicate OrderOf(order: seq<string>, names: set<string>) {
    (forall n :: n in order <==> n in names) && forall i, j :: 0 <= i < j < |order| ==> order[i] != order[j]
  }

  /** Reading `names` in some order gives `config`. */
  ghost predicate SettledInOrder(look: Look, names: set<string>, base: Config, config: Config) {
    exists order :: OrderOf(order, names) && config == InOrder(base, order, look)
  }

  lemma OrderNext(look: Look, names: set<string>, base: Config, config: Config, n: string)
    requires SettledInOrder(look, names, base, config) && n !in names && IsProviderKey(n) && n in look
    ensures SettledInOrder(look, names + {n}, base, With(config, Provider(ProviderOf(n)), look[n]))
  {
    var order :| OrderOf(order, names) && config == InOrder(base, order, look);
    OrderSnoc(order, names, n);
    assert (order + [n])[..|order + [n]| - 1] == order;
  }

  lemma OrderSnoc(order: seq<string>, names: set<string>, n: string)
    requires OrderOf(order, names) && n !in names
    ensures OrderOf(order + [n], names + {n})
  {
    assert forall m :: m in order + [n] <==> m in order || m == n;
    assert forall i :: 0 <= i < |order| ==> order[i] in order;
  }

  lemma OrderInit(order: seq<string>, names: set<string>)
    requires OrderOf(order, names) && order != []
    ensures order[|order| - 1] in names && OrderOf(order[..|order| - 1], names - {order[|order| - 1]})
  {
    var pre, n := order[..|order| - 1], order[|order| - 1];
    assert n in order;
    assert forall m :: m in order <==> m in pre || m == n;
    assert forall i :: 0 <= i < |pre| ==> pre[i] == order[i];
  }

  lemma {:induction false} InOrderOverrides(look: Look, names: set<string>, base: Config, order: seq<string>)
    requires OrderOf(order, names) && forall n :: n in names ==> IsProviderKey(n) && n in look
    ensures AllOverridden(look, names, base, InOrder(base, order, look))
  {
    if order == [] {
      assert forall slot, v :: !GenericSets(look, names, slot, v);
    } else {
      var pre, n := order[..|order| - 1], order[|order| - 1];
      OrderInit(order, names);
      InOrderOverrides(look, names - {n}, base, pre);
      var config, after := InOrder(base, pre, look), InOrder(base, order, look);
      assert names - {n} + {n} == names;
      forall slot ensures Overridden(look, names, base, after, slot) {
        assert Overridden(look, names - {n}, base, config, slot);
        OverrideOneMore(look, names - {n}, base, config, n, after, slot);
      }
    }
  }

  /** One generic key more. */
  lemma OverrideOneMore(look: Look, names: set<string>, base: Config, config: Config, n: string, after: Config, slot: Slot)
    requires IsProviderKey(n) && Overridden(look, names, base, config, slot)
    requires after == if FindsAny(look, n) then config[Provider(ProviderOf(n)) := look[n].secret.value] else config
    ensures Overridden(look, names + {n}, base, after, slot)
  {
    forall v ensures GenericSets(look, names + {n}, slot, v) <==>
        GenericSets(look, names, slot, v) || (slot == Provider(ProviderOf(n)) && Finds(look, n, v))
    {
      if GenericSets(look, names, slot, v) {
        var m :| m in names && IsProviderKey(m) && slot == Provider(ProviderOf(m)) && Finds(look, m, v);
        assert m in names + {n};
      }
    }
    if FindsAny(look, n) { assert Finds(look, n, look[n].secret.value); }
  }

  // ---------------------------------------------------------------------------------------------
  // The loader
  // ---------------------------------------------------------------------------------------------

  /** One secret has been looked up, with answer `f`. */
  ghost predicate IsRead(env: Env, cache: Env, files: map<string, string>, name: string, f: Found, after: Env) {
    f == Lookup(env, cache, files, name) && after == Absorb(Looks(env, cache, files), cache, {name})
  }

  /** Some of `names` have been looked up. */
  ghost predicate PartlyAbsorbed(look: Look, before: Env, names: set<string>, after: Env) {
    exists done :: done <= names && after == Absorb(look, before, done)
  }

  /** The first `i` entries have been read, starting from `config` and the cache `before`. */
  ghost predicate EntriesRead(look: Look, before: Env, entries: seq<Entry>, i: nat, config: Config, cache: Env, settled: Config)
    requires i <= |entries|
  {
    AllReadable(look, Variables(entries[..i])) &&
    cache == Absorb(look, before, Variables(entries[..i])) &&
    settled == Assign(config, entries[..i], look)
  }

  /** The generic keys `names` have all been read. */
  ghost predicate KeysRead(look: Look, before: Env, names: set<string>, config: Config, cache: Env, settled: Config) {
    AllReadable(look, names) &&
    cache == Absorb(look, before, names) &&
    SettledInOrder(look, names, config, settled)
  }

  lemma FileIsAnswered(env: Env, files: map<string, string>, name: string)
    ensures FileAnswers(env, files, name, FromFile(env, files, name))
  {
    var path := Get(env, FileVar(name));
    if path in files { TrimsOneLineEnd(files[path]); }
  }

  lemma LookUpOne(env: Env, cache: Env, files: map<string, string>, name: string)
    ensures var f := Lookup(env, cache, files, name);
      IsRead(env, cache, files, name, f, if f.Ok? && f.secret.Some? then cache[name := f.secret.value] else cache)
  {
    var look, f := Looks(env, cache, files), Lookup(env, cache, files, name);
    assert look[name] == f;
    assert Absorb(look, cache, {name}) == if f.Ok? && f.secret.Some? then cache[name := f.secret.value] else cache;
  }

  class SecretStore {
    /** `os.environ`. */
    var env: Env
    /** `_SECRET_ENV_CACHE`. */
    var cache: Env

    constructor (environ: Env)
      ensures env == environ && cache == map[]
    {
      env, cache := environ, map[];
    }

    /** `_secret_env`. */
    method SecretEnv(name: string, files: map<string, string>) returns (f: Found)
      modifies this`cache
      ensures IsRead(env, old(cache), files, name, f, cache)
      ensures Get(env, name) != "" ==> f == Ok(Some(env[name]))
      ensures Get(env, name) == "" && Get(old(cache), name) != "" ==> f == Ok(Some(old(cache)[name]))
      ensures Get(env, name) == "" && Get(old(cache), name) == "" ==> FileAnswers(env, files, name, f)
      ensures cache == if f.Ok? && f.secret.Some? then old(cache)[name := f.secret.value] else old(cache)
    {
      LookUpOne(env, cache, files, name);
      if Get(env, name) != "" {
        cache := cache[name := env[name]];
        return Ok(Some(env[name]));
      }
      if Get(cache, name) != "" {
        return Ok(Some(cache[name]));
      }
      f := FromFile(env, files, name);
      FileIsAnswered(env, files, name);
      if f.Ok? && f.secret.Some? {
        cache := cache[name := f.secret.value];
      }
    }

    /** `_unset_sensitive_env`: pops one name at a time off a copy of the names. */
    method UnsetSensitiveEnv()
      modifies this`env
      ensures env == Unset(old(env))
    {
      var names := env.Keys;
      ghost var popped: set<string> := {};
      while names != {}
        invariant names + popped == old(env).Keys && names !! popped
        invariant env == old(env) - set n | n in popped && Sensitive(n)
      {
        var name :| name in names;
        names := names - {name};
        if Sensitive(name) { env := env - {name}; }
        popped := popped + {name};
      }
    }

    /** The well-known names of one group, in order; the first unreadable `_FILE` ends the load. */
    method ReadEntries(entries: seq<Entry>, files: map<string, string>, config: Config) returns (ok: bool, settled: Config)
      modifies this`cache
      ensures var look := Looks(env, old(cache), files);
        (ok <==> AllReadable(look, Variables(entries))) &&
        (ok ==> EntriesRead(look, old(cache), entries, |entries|, config, cache, settled)) &&
        PartlyAbsorbed(look, old(cache), Variables(entries), cache)
    {
      ghost var environ, before := env, cache;
      ghost var look := Looks(environ, before, files);
      settled := config;
      NothingRead(look, before, entries, config);
      var i := 0;
      while i < |entries|
        invariant 0 <= i <= |entries|
        invariant EntriesRead(look, before, entries, i, config, cache, settled)
        invariant env == environ
        invariant PartlyAbsorbed(look, before, Variables(entries), cache)
      {
        ghost var seen := cache;
        var f := SecretEnv(entries[i].variable, files);
        assert env == environ;
        EntryReadNext(environ, files, before, entries, i, config, seen, settled, f, cache);
        if f.ConfigError? { return false, settled; }
        settled := With(settled, entries[i].slot, f);
        i := i + 1;
      }
      WholeEntries(entries);
      ok := true;
    }

    /** The generic provider keys, in any order. */
    method ReadGenericKeys(files: map<string, string>, config: Config) returns (ok: bool, settled: Config)
      modifies this`cache
      ensures var look, names := Looks(env, old(cache), files), GenericNames(env, old(cache));
        (ok <==> AllReadable(look, names)) &&
        (ok ==> KeysRead(look, old(cache), names, config, cache, settled)) &&
        PartlyAbsorbed(look, old(cache), names, cache)
    {
      ghost var environ, before, all := env, cache, GenericNames(env, cache);
      ghost var look := Looks(environ, before, files);
      var names := GenericNames(env, cache);
      settled := config;
      NothingAbsorbed(look, cache, all);
      assert OrderOf([], all - names);
      while names != {}
        invariant names <= all
        invariant KeysRead(look, before, all - names, config, cache, settled)
        invariant env == environ
        invariant PartlyAbsorbed(look, before, all, cache)
      {
        var name :| name in names;
        ghost var seen := cache;
        var f := SecretEnv(name, files);
        assert env == environ;
        KeyReadNext(environ, files, before, all, names, name, config, seen, settled, f, cache);
        names := names - {name};
        if f.ConfigError? { return false, settled; }
        settled := With(settled, Provider(ProviderOf(name)), f);
      }
      assert all - names == all;
      ok := true;
    }

    /** `_apply_env_vars`, as far as it reads secrets: an unreadable secret file ends the load before any
        variable is unset. */
    method ApplyEnvVars(files: map<string, string>, unsetSecrets: bool, base: Config) returns (ok: bool, config: Config)
      modifies this
      ensures ok ==> Loaded(old(Store(env, cache)), files, unsetSecrets, Store(env, cache))
      ensures ok ==> Configures(Looks(old(env), old(cache), files), GenericNames(old(env), old(cache)), base, config)
      ensures !ok ==> LoadFailed(old(Store(env, cache)), files, unsetSecrets, Store(env, cache))
    {
      ghost var environ, c0 := env, cache;
      ghost var all := NamesRead(env, cache, unsetSecrets);
      var known, keyed;
      ok, known := ReadEntries(PROVIDER_ENTRIES, files, base);
      if !ok {
        PhaseFails(environ, files, c0, {}, c0, Variables(PROVIDER_ENTRIES), cache, all);
        return false, known;
      }
      ghost var c1 := cache;
      assert env == environ;
      ProvidersRead(environ, files, c0, base, c1, known);
      ok, keyed := ReadGenericKeys(files, known);
      if !ok {
        PhaseFails(environ, files, c0, Variables(PROVIDER_ENTRIES), c1, GenericNames(environ, c0), cache, all);
        return false, keyed;
      }
      ghost var c2 := cache;
      assert env == environ;
      KeysReadToo(environ, files, c0, base, c1, known, c2, keyed);
      ok, config := ReadEntries(SERVICE_ENTRIES, files, keyed);
      ghost var sofar := Variables(PROVIDER_ENTRIES) + GenericNames(environ, c0);
      if !ok {
        PhaseFails(environ, files, c0, sofar, c2, Variables(SERVICE_ENTRIES), cache, all);
        return false, config;
      }
      ghost var c3 := cache;
      assert env == environ;
      ServicesReadToo(environ, files, c0, base, c2, keyed, c3, config);
      if unsetSecrets && !KeepSecrets(env) {
        var f := SecretEnv(SEEDED, files);
        assert env == environ;
        SeedRead(environ, files, c0, c3, f, cache);
        if f.ConfigError? { return false, config; }
        UnsetSensitiveEnv();
      }
    }
  }

  datatype Store = Store(env: Env, cache: Env)

  /** What a load that reads every secret leaves behind. */
  ghost predicate Loaded(s: Store, files: map<string, string>, unsetSecrets: bool, t: Store) {
    var look, names := Looks(s.env, s.cache, files), NamesRead(s.env, s.cache, unsetSecrets);
    AllReadable(look, names) &&
    t.cache == Absorb(look, s.cache, names) &&
    t.env == (if Unsetting(s.env, unsetSecrets) then Unset(s.env) else s.env)
  }

  /** A `ConfigError`: some secrets may have been cached, but the environment is untouched. */
  ghost predicate LoadFailed(s: Store, files: map<string, string>, unsetSecrets: bool, t: Store) {
    var look, names := Looks(s.env, s.cache, files), NamesRead(s.env, s.cache, unsetSecrets);
    !AllReadable(look, names) && t.env == s.env && PartlyAbsorbed(look, s.cache, names, t.cache)
  }

  lemma AbsorbMore(look: Look, cache: Env, some: set<string>, more: set<string>)
    ensures Absorb(look, Absorb(look, cache, some), more) == Absorb(look, cache, some + more)
  {
  }

  lemma PhaseFails(env: Env, files: map<string, string>, c0: Env, some: set<string>, c1: Env, more: set<string>, c2: Env,
                   all: set<string>)
    requires some + more <= all
    requires c1 == Absorb(Looks(env, c0, files), c0, some) || (some == {} && c1 == c0)
    requires !AllReadable(Looks(env, c1, files), more) && PartlyAbsorbed(Looks(env, c1, files), c1, more, c2)
    ensures !AllReadable(Looks(env, c0, files), all) && PartlyAbsorbed(Looks(env, c0, files), c0, all, c2)
  {
    var look := Looks(env, c0, files);
    NothingAbsorbed(look, c0, {});
    AbsorbKeepsLookups(env, c0, files, some);
    var done :| done <= more && c2 == Absorb(look, c1, done);
    AbsorbMore(look, c0, some, done);
    assert some + done <= all;
  }

  lemma ProvidersRead(env: Env, files: map<string, string>, c0: Env, base: Config, c1: Env, known: Config)
    requires var n := |PROVIDER_ENTRIES|; EntriesRead(Looks(env, c0, files), c0, PROVIDER_ENTRIES, n, base, c1, known)
    ensures var look, names := Looks(env, c0, files), Variables(PROVIDER_ENTRIES);
      AllReadable(look, names) && c1 == Absorb(look, c0, names) && known == Assign(base, PROVIDER_ENTRIES, look)
    ensures Looks(env, c1, files) == Looks(env, c0, files) && GenericNames(env, c1) == GenericNames(env, c0)
  {
    assert PROVIDER_ENTRIES[..|PROVIDER_ENTRIES|] == PROVIDER_ENTRIES;
    AbsorbKeepsLookups(env, c0, files, Variables(PROVIDER_ENTRIES));
    EntriesAreNotGeneric();
    SameGenericNames(Looks(env, c0, files), env, c0, Variables(PROVIDER_ENTRIES));
  }

  /** Caching secrets that are not generic keys leaves the generic names as they are. */
  lemma SameGenericNames(look: Look, env: Env, cache: Env, names: set<string>)
    requires forall n :: n in names ==> !IsProviderKey(n)
    ensures GenericNames(env, Absorb(look, cache, names)) == GenericNames(env, cache)
  {
  }

  lemma KeysReadToo(env: Env, files: map<string, string>, c0: Env, base: Config, c1: Env, known: Config, c2: Env, keyed: Config)
    requires AllReadable(Looks(env, c0, files), Variables(PROVIDER_ENTRIES))
    requires c1 == Absorb(Looks(env, c0, files), c0, Variables(PROVIDER_ENTRIES))
    requires KeysRead(Looks(env, c0, files), c1, GenericNames(env, c0), known, c2, keyed)
    ensures var look, names := Looks(env, c0, files), Variables(PROVIDER_ENTRIES) + GenericNames(env, c0);
      AllReadable(look, names) && c2 == Absorb(look, c0, names) && Looks(env, c2, files) == look
    ensures AllOverridden(Looks(env, c0, files), GenericNames(env, c0), known, keyed)
  {
    KeysOverride(Looks(env, c0, files), GenericNames(env, c0), known, keyed);
    AbsorbMore(Looks(env, c0, files), c0, Variables(PROVIDER_ENTRIES), GenericNames(env, c0));
    AbsorbKeepsLookups(env, c0, files, Variables(PROVIDER_ENTRIES) + GenericNames(env, c0));
  }

  lemma KeysOverride(look: Look, names: set<string>, known: Config, keyed: Config)
    requires SettledInOrder(look, names, known, keyed) && forall n :: n in names ==> IsProviderKey(n) && n in look
    ensures AllOverridden(look, names, known, keyed)
  {
    var order :| OrderOf(order, names) && keyed == InOrder(known, order, look);
    InOrderOverrides(look, names, known, order);
  }

  lemma ServicesReadToo(env: Env, files: map<string, string>, c0: Env, base: Config, c2: Env, keyed: Config, c3: Env, config: Config)
    requires var look, names := Looks(env, c0, files), Variables(PROVIDER_ENTRIES) + GenericNames(env, c0);
      AllReadable(look, names) && c2 == Absorb(look, c0, names)
    requires AllOverridden(Looks(env, c0, files), GenericNames(env, c0), Assign(base, PROVIDER_ENTRIES, Looks(env, c0, files)), keyed)
    requires var n := |SERVICE_ENTRIES|; EntriesRead(Looks(env, c0, files), c2, SERVICE_ENTRIES, n, keyed, c3, config)
    ensures Configures(Looks(env, c0, files), GenericNames(env, c0), base, config)
    ensures var look, names := Looks(env, c0, files), NamesRead(env, c0, false);
      AllReadable(look, names) && c3 == Absorb(look, c0, names) && Looks(env, c3, files) == look
  {
    var look, names := Looks(env, c0, files), Variables(PROVIDER_ENTRIES) + GenericNames(env, c0);
    assert NamesRead(env, c0, false) == names + Variables(SERVICE_ENTRIES);
    LastEntriesRead(look, c0, names, c2, SERVICE_ENTRIES, keyed, c3, config);
    AbsorbKeepsLookups(env, c0, files, NamesRead(env, c0, false));
    ServiceSlots();
    ServicesKeepProviders(look, GenericNames(env, c0), Assign(base, PROVIDER_ENTRIES, look), keyed, SERVICE_ENTRIES);
  }

  lemma ServiceSlots()
    ensures forall e :: e in SERVICE_ENTRIES ==> e.slot.Service?
  {
  }

  lemma LastEntriesRead(look: Look, c0: Env, names: set<string>, c2: Env, entries: seq<Entry>, keyed: Config, c3: Env, config: Config)
    requires AllReadable(look, names) && c2 == Absorb(look, c0, names)
    requires EntriesRead(look, c2, entries, |entries|, keyed, c3, config)
    ensures config == Assign(keyed, entries, look)
    ensures AllReadable(look, names + Variables(entries)) && c3 == Absorb(look, c0, names + Variables(entries))
  {
    assert entries[..|entries|] == entries;
    AbsorbMore(look, c0, names, Variables(entries));
  }

  lemma SeedRead(env: Env, files: map<string, string>, c0: Env, c3: Env, f: Found, c4: Env)
    requires var look, names := Looks(env, c0, files), NamesRead(env, c0, false);
      AllReadable(look, names) && c3 == Absorb(look, c0, names)
    requires !KeepSecrets(env) && IsRead(env, c3, files, SEEDED, f, c4)
    ensures var look, names := Looks(env, c0, files), NamesRead(env, c0, true);
      (f.Ok? <==> AllReadable(look, names)) && c4 == Absorb(look, c0, names) && PartlyAbsorbed(look, c0, names, c4)
  {
    var look, names := Looks(env, c0, files), NamesRead(env, c0, false);
    assert NamesRead(env, c0, true) == names + {SEEDED};
    AbsorbKeepsLookups(env, c0, files, names);
    AbsorbOneMore(look, c0, names, SEEDED);
    assert look[SEEDED] == f;
  }

  lemma NothingAbsorbed(look: Look, cache: Env, names: set<string>)
    ensures Absorb(look, cache, {}) == cache && PartlyAbsorbed(look, cache, names, cache)
  {
    assert Absorb(look, cache, {}) == cache;
  }

  lemma AbsorbNext(look: Look, before: Env, all: set<string>, done: set<string>, n: string, cache: Env)
    requires done <= all && n in all && n in look
    requires AllReadable(look, done) && cache == Absorb(look, before, done)
    ensures var after := Absorb(look, cache, {n});
      after == Absorb(look, before, done + {n}) && PartlyAbsorbed(look, before, all, after)
    ensures look[n].Ok? ==> AllReadable(look, done + {n})
    ensures look[n].ConfigError? ==> !AllReadable(look, all)
  {
    AbsorbOneMore(look, before, done, n);
    assert done + {n} <= all;
  }

  lemma NothingRead(look: Look, before: Env, entries: seq<Entry>, config: Config)
    ensures EntriesRead(look, before, entries, 0, config, before, config)
    ensures PartlyAbsorbed(look, before, Variables(entries), before)
  {
    NothingAbsorbed(look, before, Variables(entries));
    assert entries[..0] == [] && Variables([]) == {};
  }

  lemma WholeEntries(entries: seq<Entry>)
    ensures Variables(entries[..|entries|]) == Variables(entries)
  {
    assert entries[..|entries|] == entries;
  }

  lemma EntryReadNext(env: Env, files: map<string, string>, before: Env, entries: seq<Entry>, i: nat, config: Config,
                      cache: Env, settled: Config, f: Found, after: Env)
    requires i < |entries| && EntriesRead(Looks(env, before, files), before, entries, i, config, cache, settled)
    requires IsRead(env, cache, files, entries[i].variable, f, after)
    ensures var look := Looks(env, before, files);
      PartlyAbsorbed(look, before, Variables(entries), after) &&
      (f.ConfigError? ==> !AllReadable(look, Variables(entries))) &&
      (f.Ok? ==> EntriesRead(look, before, entries, i + 1, config, after, With(settled, entries[i].slot, f)))
  {
    var look, n := Looks(env, before, files), entries[i].variable;
    AbsorbKeepsLookups(env, before, files, Variables(entries[..i]));
    assert look[n] == f;
    OneEntryMore(entries, i);
    AbsorbNext(look, before, Variables(entries), Variables(entries[..i]), n, cache);
    AssignNext(config, entries, i, look);
  }

  lemma AssignNext(config: Config, entries: seq<Entry>, i: nat, look: Look)
    requires i < |entries| && entries[i].variable in look
    ensures Assign(config, entries[..i + 1], look)
         == With(Assign(config, entries[..i], look), entries[i].slot, look[entries[i].variable])
  {
    OneEntryMore(entries, i);
  }

  lemma KeyReadNext(env: Env, files: map<string, string>, before: Env, all: set<string>, left: set<string>, n: string,
                    config: Config, cache: Env, settled: Config, f: Found, after: Env)
    requires n in left && left <= all && KeysRead(Looks(env, before, files), before, all - left, config, cache, settled)
    requires IsProviderKey(n) && IsRead(env, cache, files, n, f, after)
    ensures var look := Looks(env, before, files);
      PartlyAbsorbed(look, before, all, after) &&
      (f.ConfigError? ==> !AllReadable(look, all)) &&
      (f.Ok? ==>
        KeysRead(look, before, all - (left - {n}), config, after, With(settled, Provider(ProviderOf(n)), f)))
  {
    var look, done := Looks(env, before, files), all - left;
    assert done + {n} == all - (left - {n});
    AbsorbKeepsLookups(env, before, files, done);
    assert look[n] == f;
    AbsorbNext(look, before, all, done, n, cache);
    OrderNext(look, done, config, settled, n);
  }

  lemma OneEntryMore(entries: seq<Entry>, i: nat)
    requires i < |entries|
    ensures entries[..i + 1][..i] == entries[..i]
    ensures Variables(entries[..i + 1]) == Variables(entries[..i]) + {entries[i].variable}
    ensures Variables(entries[..i + 1]) <= Variables(entries)
  {
    assert entries[..i + 1] == entries[..i] + [entries[i]];
  }

  // ---------------------------------------------------------------------------------------------
  // One load
  // ---------------------------------------------------------------------------------------------

  ghost function LooksIn(s: Store, files: map<string, string>): Look { Looks(s.env, s.cache, files) }

  /** After a load that unsets, no sensitive variable is left for a child process to inherit, every other
      variable is as it was, and each value taken out of the environment is in the cache. */
  lemma LoadUnsetsExactly(s: Store, files: map<string, string>, unsetSecrets: bool, t: Store)
    requires Loaded(s, files, unsetSecrets, t)
    ensures Unsetting(s.env, unsetSecrets) ==> forall n :: n in t.env <==> n in s.env && !Sensitive(n)
    ensures !Unsetting(s.env, unsetSecrets) ==> t.env == s.env
    ensures forall n :: n in t.env ==> t.env[n] == s.env[n]
    ensures forall n :: n in s.env && n !in t.env && s.env[n] != "" ==> n in t.cache && t.cache[n] == s.env[n]
  {
    forall n | n in s.env && n !in t.env && s.env[n] != "" ensures n in t.cache && t.cache[n] == s.env[n] {
      UnsetNamesAreRead(s.env, s.cache, n);
      assert LooksIn(s, files)[n] == Lookup(s.env, s.cache, files, n);
      assert Finds(LooksIn(s, files), n, s.env[n]);
    }
  }

  /** One secret file that cannot be read keeps every secret of the process inheritable: with a key for one provider
      in the environment and an unreadable file for another's, no load succeeds, and none takes the key out. */
  lemma UnreadableFileKeepsSecrets(key: string, path: string, files: map<string, string>, unsetSecrets: bool, t: Store)
    requires key != "" && path != "" && path !in files
    ensures var s := Store(map["OPENAI_API_KEY" := key, FileVar("GROQ_API_KEY") := path], map[]);
            !Loaded(s, files, unsetSecrets, t) &&
            (LoadFailed(s, files, unsetSecrets, t) ==> "OPENAI_API_KEY" in t.env && t.env["OPENAI_API_KEY"] == key)
  {
    var s := Store(map["OPENAI_API_KEY" := key, FileVar("GROQ_API_KEY") := path], map[]);
    ProviderNamesAreRead();
    FileVarsDiffer("GROQ_API_KEY");
    assert "GROQ_API_KEY" in NamesRead(s.env, s.cache, unsetSecrets);
    assert LooksIn(s, files)["GROQ_API_KEY"] == Lookup(s.env, s.cache, files, "GROQ_API_KEY");
    assert Lookup(s.env, s.cache, files, "GROQ_API_KEY").ConfigError?;
  }

  lemma FileVarsDiffer(n: string)
    ensures FileVar(n) != n && FileVar(n) != "OPENAI_API_KEY"
  {
    assert FileVar(n)[|FileVar(n)| - 1] == 'E';
  }

  /** Every secret a load read resolves afterwards to what that load found, whatever has become of the files. */
  lemma LoadedSecretsStay(s: Store, files: map<string, string>, unsetSecrets: bool, t: Store, later: map<string, string>,
                          n: string)
    requires Loaded(s, files, unsetSecrets, t)
    requires n in NamesRead(s.env, s.cache, unsetSecrets)
    ensures Lookup(t.env, t.cache, later, n) == Lookup(s.env, s.cache, files, n)
  {
    AbsorbedStays(s, files, NamesRead(s.env, s.cache, unsetSecrets), t, later, n);
  }

  lemma AbsorbedStays(s: Store, files: map<string, string>, names: set<string>, t: Store, later: map<string, string>, n: string)
    requires n in names && AllReadable(LooksIn(s, files), names) && t.cache == Absorb(LooksIn(s, files), s.cache, names)
    requires t.env == s.env || t.env == Unset(s.env)
    ensures Lookup(t.env, t.cache, later, n) == Lookup(s.env, s.cache, files, n)
  {
    var f := Lookup(s.env, s.cache, files, n);
    assert LooksIn(s, files)[n] == f;
    if f.secret.None? {
      FileVarsAreKept(n);
      assert Get(t.env, FileVar(n)) == Get(s.env, FileVar(n));
    }
  }

  lemma {:induction false} AssignSame(config: Config, entries: seq<Entry>, look: Look, other: Look)
    requires forall e :: e in entries ==> e.variable in look && e.variable in other && look[e.variable] == other[e.variable]
    ensures Assign(config, entries, look) == Assign(config, entries, other)
  {
    if entries != [] {
      AssignSame(config, entries[..|entries| - 1], look, other);
    }
  }

  lemma OverriddenSame(look: Look, names: set<string>, other: Look, others: set<string>, base: Config, config: Config)
    requires forall n, v :: n in names && IsProviderKey(n) && Finds(look, n, v) <==> n in others && IsProviderKey(n) && Finds(other, n, v)
    ensures AllOverridden(look, names, base, config) <==> AllOverridden(other, others, base, config)
  {
    forall slot ensures Overridden(look, names, base, config, slot) <==> Overridden(other, others, base, config, slot) {
      assert forall v :: GenericSets(look, names, slot, v) <==> GenericSets(other, others, slot, v);
    }
  }

  /** A reload configures exactly what the load before it did: unsetting the variables, or losing the secret
      files, costs no provider or service its key. */
  lemma ReloadConfiguresTheSame(s: Store, files: map<string, string>, unsetSecrets: bool, t: Store, later: map<string, string>,
                                base: Config, next: Config)
    requires Loaded(s, files, unsetSecrets, t)
    ensures AllReadable(LooksIn(t, later), NamesRead(t.env, t.cache, false))
    ensures Configures(LooksIn(t, later), GenericNames(t.env, t.cache), base, next)
       <==> Configures(LooksIn(s, files), GenericNames(s.env, s.cache), base, next)
  {
    var look, again := LooksIn(s, files), LooksIn(t, later);
    AllStay(s, files, NamesRead(s.env, s.cache, unsetSecrets), t, later);
    GenericNamesAfterLoad(s, files, unsetSecrets, t);
    FewerNames(s, unsetSecrets, t);
    ConfiguresSame(look, GenericNames(s.env, s.cache), again, GenericNames(t.env, t.cache), base, PROVIDER_ENTRIES,
                   SERVICE_ENTRIES, next);
  }

  lemma FewerNames(s: Store, unsetSecrets: bool, t: Store)
    requires GenericNames(t.env, t.cache) <= GenericNames(s.env, s.cache)
    ensures NamesRead(t.env, t.cache, false) <= NamesRead(s.env, s.cache, unsetSecrets)
  {
  }

  lemma AllStay(s: Store, files: map<string, string>, names: set<string>, t: Store, later: map<string, string>)
    requires AllReadable(LooksIn(s, files), names) && t.cache == Absorb(LooksIn(s, files), s.cache, names)
    requires t.env == s.env || t.env == Unset(s.env)
    ensures forall n :: n in names ==>
      n in LooksIn(s, files) && n in LooksIn(t, later) && LooksIn(t, later)[n] == LooksIn(s, files)[n]
  {
    forall n | n in names ensures LooksIn(t, later)[n] == LooksIn(s, files)[n] {
      AbsorbedStays(s, files, names, t, later, n);
    }
  }

  lemma ConfiguresSame(look: Look, names: set<string>, other: Look, others: set<string>, base: Config, first: seq<Entry>,
                       last: seq<Entry>, next: Config)
    requires forall n :: n in Variables(first) + names + Variables(last) ==> n in look && n in other && other[n] == look[n]
    requires others <= names && forall n :: n in names && FindsAny(look, n) ==> n in others
    ensures AllOverridden(look, names, Assign(Assign(base, first, look), last, look), next)
       <==> AllOverridden(other, others, Assign(Assign(base, first, other), last, other), next)
  {
    AssignSame(base, first, look, other);
    AssignSame(Assign(base, first, look), last, look, other);
    OverriddenSame(look, names, other, others, Assign(Assign(base, first, look), last, look), next);
  }

  lemma GenericNamesAfterLoad(s: Store, files: map<string, string>, unsetSecrets: bool, t: Store)
    requires Loaded(s, files, unsetSecrets, t)
    ensures GenericNames(t.env, t.cache) <= GenericNames(s.env, s.cache)
    ensures forall n :: n in GenericNames(s.env, s.cache) && FindsAny(LooksIn(s, files), n) ==> n in GenericNames(t.env, t.cache)
  {
    forall n | n in GenericNames(t.env, t.cache) ensures n in GenericNames(s.env, s.cache) {
      EntriesAreNotGeneric();
    }
  }

  /** No provider gets two different values from the generic keys. */
  ghost predicate OneKeyEach(look: Look, names: set<string>) {
    forall slot, v, w :: GenericSets(look, names, slot, v) && GenericSets(look, names, slot, w) ==> v == w
  }

  /** Every order of the generic keys gives the same configuration. */
  ghost predicate OrdersAgree(look: Look, names: set<string>, base: Config) {
    forall one, two :: OrderOf(one, names) && OrderOf(two, names) ==> InOrder(base, one, look) == InOrder(base, two, look)
  }

  lemma {:induction false} AnOrder(names: set<string>) returns (order: seq<string>)
    ensures OrderOf(order, names)
  {
    if names == {} {
      order := [];
    } else {
      var n :| n in names;
      var rest := AnOrder(names - {n});
      OrderSnoc(rest, names - {n}, n);
      order := rest + [n];
      assert names - {n} + {n} == names;
    }
  }

  lemma {:induction false} OrdersJoin(base: Config, a: seq<string>, b: seq<string>, look: Look)
    ensures InOrder(base, a + b, look) == InOrder(InOrder(base, a, look), b, look)
  {
    if b == [] {
      assert a + b == a;
    } else {
      OrdersJoin(base, a, b[..|b| - 1], look);
      assert (a + b)[..|a + b| - 1] == a + b[..|b| - 1];
    }
  }

  /** Some key in `order` is for `slot`, and resolves. */
  ghost predicate Sets(order: seq<string>, look: Look, slot: Slot) {
    exists n :: n in order && FindsAny(look, n) && IsProviderKey(n) && slot == Provider(ProviderOf(n))
  }

  /** Keys whose values `config` already has leave exactly these values behind. */
  lemma {:induction false} WinnersSettle(base: Config, order: seq<string>, look: Look, config: Config, slot: Slot)
    requires forall i :: 0 <= i < |order| ==> Wins(look, config, order[i])
    ensures Value(InOrder(base, order, look), slot) == if Sets(order, look, slot) then Value(config, slot) else Value(base, slot)
  {
    if order != [] {
      var pre, n := order[..|order| - 1], order[|order| - 1];
      assert order == pre + [n];
      WinnersSettle(base, pre, look, config, slot);
      WinnerNext(base, pre, n, look, config, slot);
    }
  }

  lemma WinnerNext(base: Config, pre: seq<string>, n: string, look: Look, config: Config, slot: Slot)
    requires Wins(look, config, n)
    requires Value(InOrder(base, pre, look), slot) == if Sets(pre, look, slot) then Value(config, slot) else Value(base, slot)
    ensures Value(InOrder(base, pre + [n], look), slot) ==
            if Sets(pre + [n], look, slot) then Value(config, slot) else Value(base, slot)
  {
    assert (pre + [n])[..|pre + [n]| - 1] == pre;
    SetsNext(pre, n, look, slot);
    OneWinner(InOrder(base, pre, look), n, look, config, slot);
  }

  lemma OneWinner(earlier: Config, n: string, look: Look, config: Config, slot: Slot)
    requires Wins(look, config, n)
    ensures var after := if n in look then With(earlier, Provider(ProviderOf(n)), look[n]) else earlier;
            Value(after, slot) ==
            if FindsAny(look, n) && slot == Provider(ProviderOf(n)) then Value(config, slot) else Value(earlier, slot)
  {
  }

  lemma SetsNext(order: seq<string>, n: string, look: Look, slot: Slot)
    ensures Sets(order + [n], look, slot) <==>
            Sets(order, look, slot) || (FindsAny(look, n) && IsProviderKey(n) && slot == Provider(ProviderOf(n)))
  {
    assert forall m :: m in order + [n] <==> m in order || m == n;
  }

  lemma {:induction false} LosersKeep(base: Config, order: seq<string>, look: Look, slot: Slot)
    requires !Sets(order, look, slot)
    ensures Value(InOrder(base, order, look), slot) == Value(base, slot)
  {
    if order != [] {
      var pre, n := order[..|order| - 1], order[|order| - 1];
      assert order == pre + [n];
      SetsNext(pre, n, look, slot);
      LosersKeep(base, pre, look, slot);
    }
  }

  /** The configurations the keys may leave are exactly those that some order of reading them gives. */
  lemma OrdersGiveExactly(look: Look, names: set<string>, base: Config, config: Config)
    requires forall n :: n in names ==> IsProviderKey(n) && n in look
    ensures AllOverridden(look, names, base, config) <==> SettledInOrder(look, names, base, config)
  {
    if SettledInOrder(look, names, base, config) {
      KeysOverride(look, names, base, config);
    }
    if AllOverridden(look, names, base, config) {
      var order := OrderFor(look, names, base, config);
    }
  }

  /** An order that gives `config`: the keys with other values first. */
  lemma OrderFor(look: Look, names: set<string>, base: Config, config: Config) returns (order: seq<string>)
    requires AllOverridden(look, names, base, config) && forall n :: n in names ==> IsProviderKey(n) && n in look
    ensures OrderOf(order, names) && InOrder(base, order, look) == config
  {
    var winners := set n | n in names && Wins(look, config, n);
    var first := AnOrder(names - winners);
    var last := AnOrder(winners);
    order := first + last;
    OrderConcat(first, names - winners, last, winners);
    assert names - winners + winners == names;
    forall slot ensures Value(InOrder(base, order, look), slot) == Value(config, slot) {
      assert Overridden(look, names, base, config, slot);
      LastWins(look, names, base, config, slot, first, last);
    }
    SameValues(InOrder(base, order, look), config);
  }

  lemma OrderConcat(a: seq<string>, names: set<string>, b: seq<string>, more: set<string>)
    requires OrderOf(a, names) && OrderOf(b, more) && names !! more
    ensures OrderOf(a + b, names + more)
  {
    assert forall n :: n in a + b <==> n in a || n in b;
    assert forall i :: 0 <= i < |a| ==> a[i] in names;
    assert forall i :: 0 <= i < |b| ==> b[i] in more;
  }

  lemma LastWins(look: Look, names: set<string>, base: Config, config: Config, slot: Slot, first: seq<string>, last: seq<string>)
    requires Overridden(look, names, base, config, slot)
    requires forall n :: n in last <==> n in names && Wins(look, config, n)
    requires forall n :: n in first ==> n in names
    ensures Value(InOrder(base, first + last, look), slot) == Value(config, slot)
  {
    OrdersJoin(base, first, last, look);
    WinnersSettle(InOrder(base, first, look), last, look, config, slot);
    WinnerSets(look, names, base, config, slot, first, last);
    if !Sets(last, look, slot) { LosersKeep(base, first, look, slot); }
  }

  ghost predicate Wins(look: Look, config: Config, n: string) {
    IsProviderKey(n) && (FindsAny(look, n) ==> Value(config, Provider(ProviderOf(n))) == Some(look[n].secret.value))
  }

  /** A slot that some key sets is set by a winner. */
  lemma WinnerSets(look: Look, names: set<string>, base: Config, config: Config, slot: Slot, first: seq<string>, last: seq<string>)
    requires Overridden(look, names, base, config, slot)
    requires forall n :: n in last <==> n in names && Wins(look, config, n)
    requires forall n :: n in first ==> n in names
    ensures Sets(last, look, slot) <==> exists v :: GenericSets(look, names, slot, v)
    ensures Sets(first, look, slot) ==> Sets(last, look, slot)
  {
    if Sets(first + last, look, slot) {
      var n :| n in first + last && FindsAny(look, n) && IsProviderKey(n) && slot == Provider(ProviderOf(n));
      assert Finds(look, n, look[n].secret.value) && GenericSets(look, names, slot, look[n].secret.value);
    }
    if v :| GenericSets(look, names, slot, v) {
      var n :| n in names && IsProviderKey(n) && slot == Provider(ProviderOf(n)) && Finds(look, n, config[slot]);
      assert n in last;
    }
    if Sets(first, look, slot) { assert Sets(first + last, look, slot); }
    if Sets(last, look, slot) { assert Sets(first + last, look, slot); }
  }

  /** The configuration does not depend on the order in which the generic keys are met if and only if no provider
      gets two different values from them. */
  lemma ConfigurationIsDeterminedIff(look: Look, names: set<string>, base: Config)
    requires forall n :: n in names ==> IsProviderKey(n) && n in look
    ensures OrdersAgree(look, names, base) <==> OneKeyEach(look, names)
  {
    if OneKeyEach(look, names) {
      forall one, two | OrderOf(one, names) && OrderOf(two, names) ensures InOrder(base, one, look) == InOrder(base, two, look) {
        InOrderOverrides(look, names, base, one);
        InOrderOverrides(look, names, base, two);
        OneConfiguration(look, names, base, InOrder(base, one, look), InOrder(base, two, look));
      }
    } else {
      var one := AnOrder(names);
      InOrderOverrides(look, names, base, one);
      var other := TwoConfigurations(look, names, base, InOrder(base, one, look));
      var two := OrderFor(look, names, base, other);
    }
  }

  function KeyVar(provider: string): string { KEY_PREFIX + provider + KEY_SUFFIX }

  lemma KeyVarIsProviderKey(p: string)
    requires p != "" && '\n' !in p
    ensures IsProviderKey(KeyVar(p)) && ProviderOf(KeyVar(p)) == Lower(p)
  {
    var v := KeyVar(p);
    if EndsWith(v, "\n") { EndsWithLast(v, "\n"); }
    assert Core(v) == v;
    assert v[..|KEY_PREFIX|] == KEY_PREFIX && v[|v| - |KEY_SUFFIX|..] == KEY_SUFFIX;
    assert v[|KEY_PREFIX|..|v| - |KEY_SUFFIX|] == p;
  }

  /** An environment in which the order decides: one provider's name in two spellings, with two keys. */
  lemma TwoSpellingsClash(p: string, q: string, v: string, w: string, files: map<string, string>)
    requires p != q && Lower(p) == Lower(q) && p != "" && '\n' !in p && '\n' !in q && v != w && v != "" && w != ""
    ensures var env: Env := map[KeyVar(p) := v, KeyVar(q) := w];
            var look, names := Looks(env, map[], files), GenericNames(env, map[]);
            KeyVar(p) in names && KeyVar(q) in names && !OneKeyEach(look, names)
  {
    var env: Env := map[KeyVar(p) := v, KeyVar(q) := w];
    var look, names := Looks(env, map[], files), GenericNames(env, map[]);
    KeyVarIsProviderKey(p);
    KeyVarIsProviderKey(q);
    DistinctKeyVars(p, q);
    var slot := Provider(Lower(p));
    assert Finds(look, KeyVar(p), v) && Finds(look, KeyVar(q), w);
    assert GenericSets(look, names, slot, v) && GenericSets(look, names, slot, w);
  }

  lemma DistinctKeyVars(p: string, q: string)
    requires p != q
    ensures KeyVar(p) != KeyVar(q)
  {
    assert KeyVar(p)[|KEY_PREFIX|..|KeyVar(p)| - |KEY_SUFFIX|] == p;
    assert KeyVar(q)[|KEY_PREFIX|..|KeyVar(q)| - |KEY_SUFFIX|] == q;
  }

  lemma TwoConfigurations(look: Look, names: set<string>, base: Config, config: Config) returns (other: Config)
    requires AllOverridden(look, names, base, config) && !OneKeyEach(look, names)
    ensures AllOverridden(look, names, base, other) && other != config
  {
    var slot, v, w :| GenericSets(look, names, slot, v) && GenericSets(look, names, slot, w) && v != w;
    other := AnotherConfiguration(look, names, base, config, slot, if Value(config, slot) == Some(v) then w else v);
  }

  lemma AnotherConfiguration(look: Look, names: set<string>, base: Config, config: Config, slot: Slot, v: string)
    returns (other: Config)
    requires AllOverridden(look, names, base, config) && GenericSets(look, names, slot, v) && Value(config, slot) != Some(v)
    ensures AllOverridden(look, names, base, other) && other != config
  {
    other := config[slot := v];
    EitherKeyWins(look, names, base, config, slot, v, other);
    assert Value(other, slot) == Some(v);
  }

  lemma OneConfiguration(look: Look, names: set<string>, base: Config, one: Config, two: Config)
    requires OneKeyEach(look, names) && AllOverridden(look, names, base, one) && AllOverridden(look, names, base, two)
    ensures two == one
  {
    forall slot ensures Value(two, slot) == Value(one, slot) {
      assert Overridden(look, names, base, one, slot) && Overridden(look, names, base, two, slot);
    }
    SameValues(two, one);
  }

  lemma EitherKeyWins(look: Look, names: set<string>, base: Config, config: Config, slot: Slot, v: string, after: Config)
    requires AllOverridden(look, names, base, config) && GenericSets(look, names, slot, v) && after == config[slot := v]
    ensures AllOverridden(look, names, base, after)
  {
    forall x ensures Overridden(look, names, base, after, x) {
      assert Overridden(look, names, base, config, x);
    }
  }

  lemma SameValues(a: Config, b: Config)
    requires forall slot :: Value(a, slot) == Value(b, slot)
    ensures a == b
  {
    forall slot ensures slot in a <==> slot in b
      ensures slot in a && slot in b ==> a[slot] == b[slot]
    {
      assert Value(a, slot) == Value(b, slot);
    }
  }

  // ---------------------------------------------------------------------------------------------
  // Any number of loads
  // ---------------------------------------------------------------------------------------------

  /** `ReadOne` is `secret_from_env_or_file`; `SetVar` and `DelVar` are anyone changing the environment. */
  datatype Event =
    | Load(files: map<string, string>, unsetSecrets: bool)
    | ReadOne(name: string, files: map<string, string>)
    | SetVar(name: string, value: string)
    | DelVar(name: string)

  ghost predicate Step(s: Store, e: Event, t: Store) {
    match e
    case Load(files, u) => Loaded(s, files, u, t) || LoadFailed(s, files, u, t)
    case ReadOne(name, files) => t == Store(s.env, Absorb(LooksIn(s, files), s.cache, {name}))
    case SetVar(name, value) => t == Store(s.env[name := value], s.cache)
    case DelVar(name) => t == Store(s.env - {name}, s.cache)
  }

  ghost predicate Run(states: seq<Store>, events: seq<Event>) {
    |states| == |events| + 1 && forall i :: 0 <= i < |events| ==> Step(states[i], events[i], states[i + 1])
  }

  /** The step looked `name` up and found `v`; a load that fails may have got as far as caching it. */
  ghost predicate FoundBy(s: Store, e: Event, t: Store, name: string, v: string) {
    match e
    case Load(files, u) =>
      Lookup(s.env, s.cache, files, name) == Ok(Some(v)) &&
      ((Loaded(s, files, u, t) && name in NamesRead(s.env, s.cache, u)) ||
       (LoadFailed(s, files, u, t) && name in t.cache && t.cache[name] == v))
    case ReadOne(n, files) => n == name && Lookup(s.env, s.cache, files, name) == Ok(Some(v))
    case _ => false
  }

  /** The variable is set to something other than `v`. */
  predicate SetsAnew(e: Event, name: string, v: string) {
    e.SetVar? && e.name == name && e.value != "" && e.value != v
  }

  /** `v` is cached for `name`, and no live value hides it. */
  ghost predicate Pinned(s: Store, name: string, v: string) {
    v != "" && Get(s.cache, name) == v && (Get(s.env, name) == "" || Get(s.env, name) == v)
  }

  lemma PinnedAfterAbsorb(s: Store, files: map<string, string>, names: set<string>, cache: Env, name: string, v: string)
    requires cache == Absorb(LooksIn(s, files), s.cache, names)
    requires Pinned(s, name, v) || (name in names && Lookup(s.env, s.cache, files, name) == Ok(Some(v)))
    ensures Get(cache, name) == v && v != "" && (Get(s.env, name) == "" || Get(s.env, name) == v)
  {
    assert LooksIn(s, files)[name] == Lookup(s.env, s.cache, files, name);
  }

  lemma FoundByFailedLoad(s: Store, files: map<string, string>, u: bool, t: Store, name: string, v: string)
    requires LoadFailed(s, files, u, t) && Lookup(s.env, s.cache, files, name) == Ok(Some(v))
    requires name in t.cache && t.cache[name] == v
    ensures Pinned(t, name, v)
  {
  }

  lemma StepPins(s: Store, e: Event, t: Store, name: string, v: string)
    requires Step(s, e, t)
    requires FoundBy(s, e, t, name, v) || (Pinned(s, name, v) && !SetsAnew(e, name, v))
    ensures Pinned(t, name, v)
  {
    match e
    case Load(files, u) =>
      var names := NamesRead(s.env, s.cache, u);
      if LoadFailed(s, files, u, t) && FoundBy(s, e, t, name, v) {
        FoundByFailedLoad(s, files, u, t, name, v);
      } else if LoadFailed(s, files, u, t) {
        var done :| done <= names && t.cache == Absorb(LooksIn(s, files), s.cache, done);
        PinnedAfterAbsorb(s, files, done, t.cache, name, v);
      } else {
        PinnedAfterAbsorb(s, files, names, t.cache, name, v);
      }
    case ReadOne(n, files) => PinnedAfterAbsorb(s, files, {n}, t.cache, name, v);
    case SetVar(_, _) =>
    case DelVar(_) =>
  }

  lemma {:induction false} StaysPinned(states: seq<Store>, i: nat, j: nat, name: string, v: string)
    requires i <= j < |states| && Pinned(states[i], name, v)
    requires forall k :: i <= k < j && Pinned(states[k], name, v) ==> Pinned(states[k + 1], name, v)
    ensures Pinned(states[j], name, v)
    decreases j
  {
    if i < j { StaysPinned(states, i, j - 1, name, v); }
  }

  /** A secret that was read once, even by a load that then failed, resolves to the same value at every later moment,
      whatever the files then hold and whether or not its variable is still set, unless the variable is set to a new
      value. */
  lemma SecretsOutliveTheirVariables(states: seq<Store>, events: seq<Event>, i: nat, j: nat, name: string, v: string,
                                     later: map<string, string>)
    requires Run(states, events) && i < j <= |events|
    requires FoundBy(states[i], events[i], states[i + 1], name, v)
    requires forall k :: i < k < j ==> !SetsAnew(events[k], name, v)
    ensures Lookup(states[j].env, states[j].cache, later, name) == Ok(Some(v))
  {
    StepPins(states[i], events[i], states[i + 1], name, v);
    forall k | i + 1 <= k < j && Pinned(states[k], name, v) ensures Pinned(states[k + 1], name, v) {
      NextPinned(states, events, k, name, v);
    }
    StaysPinned(states, i + 1, j, name, v);
    PinnedResolves(states[j], name, v, later);
  }

  lemma NextPinned(states: seq<Store>, events: seq<Event>, k: nat, name: string, v: string)
    requires Run(states, events) && k < |events| && Pinned(states[k], name, v) && !SetsAnew(events[k], name, v)
    ensures Pinned(states[k + 1], name, v)
  {
    StepPins(states[k], events[k], states[k + 1], name, v);
  }

  lemma PinnedResolves(s: Store, name: string, v: string, later: map<string, string>)
    requires Pinned(s, name, v)
    ensures Lookup(s.env, s.cache, later, name) == Ok(Some(v))
  {
  }
}
