/** Which secret ends up where (cogtrix_core/config.py): what a secret file holds is the secret, and each documented
    variable configures its own provider or service. */
module SecretValues {
  import opened Options
  import opened Text
  import opened SecretCache

  // ---------------------------------------------------------------------------------------------
  // Files
  // ---------------------------------------------------------------------------------------------

  /** A secret written to a file is read back if there is at most one line end after it, and the secret does not
      itself end in the beginning of one: then, and only then. */
  lemma WrittenSecretsReadBack(env: Env, files: map<string, string>, name: string, v: string)
    requires v != "" && Get(env, name) == "" && Get(env, name + "_FILE") in files && Get(env, name + "_FILE") != ""
    ensures var raw, f := files[Get(env, name + "_FILE")], Lookup(env, map[], files, name);
            (raw == v + "\r\n" ==> f == Ok(Some(v))) &&
            (raw == v + "\n" ==> (f == Ok(Some(v)) <==> !EndsWith(v, "\r"))) &&
            (raw == v ==> (f == Ok(Some(v)) <==> !EndsWith(v, "\n")))
  {
    var raw := files[Get(env, name + "_FILE")];
    FileIsAnswered(env, files, name);
    TrimsOneLineEnd(raw);
    if Trims(raw, v) { TrimsIsUnique(raw, v); }
    TrimsWritten(raw, v);
  }

  /** Only one text is `raw` without its line end. */
  lemma TrimsIsUnique(raw: string, v: string)
    requires Trims(raw, v)
    ensures TrimNewline(raw) == v
  {
    if raw == v + "\r\n" {
      assert raw[|raw| - 2..] == "\r\n";
    } else if raw == v + "\n" {
      assert raw[|raw| - 1..] == "\n";
    }
  }

  lemma TrimsWritten(raw: string, v: string)
    ensures raw == v + "\r\n" ==> Trims(raw, v)
    ensures raw == v + "\n" ==> (Trims(raw, v) <==> !EndsWith(v, "\r"))
    ensures raw == v ==> (Trims(raw, v) <==> !EndsWith(v, "\n"))
  {
  }

  /** A load takes each secret it reads from the named file when there is neither a variable nor a cached value. */
  lemma LoadReadsFiles(s: Store, files: map<string, string>, unsetSecrets: bool, t: Store, n: string)
    requires Loaded(s, files, unsetSecrets, t) && n in NamesRead(s.env, s.cache, unsetSecrets)
    requires Get(s.env, n) == "" && Get(s.cache, n) == "" && Get(s.env, n + "_FILE") != ""
    ensures var path := Get(s.env, n + "_FILE");
            path in files && n in t.cache && t.cache[n] != "" && Trims(files[path], t.cache[n])
  {
    var look := LooksIn(s, files);
    FileIsAnswered(s.env, files, n);
    assert look[n] == Lookup(s.env, s.cache, files, n);
    assert FindsAny(look, n);
  }

  // ---------------------------------------------------------------------------------------------
  // Well-known variables
  // ---------------------------------------------------------------------------------------------

  /** The documented variables, and where each belongs. */
  const WELL_KNOWN: map<string, Slot> := map[
    "OPENAI_API_KEY" := Provider("openai"), "ANTHROPIC_API_KEY" := Provider("anthropic"),
    "GEMINI_API_KEY" := Provider("google"), "GROQ_API_KEY" := Provider("groq"), "XAI_API_KEY" := Provider("xai"),
    "DEEPSEEK_API_KEY" := Provider("deepseek"), "OPENWEATHER_API_KEY" := Service("openweather"),
    "TAVILY_API_KEY" := Service("tavily"), "EXA_API_KEY" := Service("exa"), "BRAVE_API_KEY" := Service("brave"),
    "SERPAPI_API_KEY" := Service("serpapi"), "GOOGLE_API_KEY" := Service("google"),
    "COGTRIX_WHATSAPP_API_KEY" := Service("whatsapp"), "COGTRIX_TELEGRAM_TOKEN" := Service("telegram"),
    "COGTRIX_SLACK_BOT_TOKEN" := Service("slack")]

  predicate DistinctSlots(entries: seq<Entry>) {
    forall i, j :: 0 <= i < j < |entries| ==> entries[i].slot != entries[j].slot
  }

  lemma {:induction false} AssignsOwn(config: Config, entries: seq<Entry>, look: Look, k: nat)
    requires DistinctSlots(entries) && k < |entries|
    ensures var e := entries[k];
            Value(Assign(config, entries, look), e.slot) ==
            if FindsAny(look, e.variable) then look[e.variable].secret else Value(config, e.slot)
  {
    var n := |entries| - 1;
    if k < n {
      AssignsOwn(config, entries[..n], look, k);
    } else {
      AssignAt(config, config, entries[..n], look, entries[k].slot);
    }
  }

  lemma ProvidersDistinct()
    ensures DistinctSlots(PROVIDER_ENTRIES)
  {
  }

  lemma ServicesDistinct()
    ensures DistinctSlots(SERVICE_ENTRIES)
  {
  }

  /** Where a documented variable stands in the tables. */
  lemma EntryOf(variable: string) returns (k: nat)
    requires variable in WELL_KNOWN
    ensures if WELL_KNOWN[variable].Provider?
            then k < |PROVIDER_ENTRIES| && PROVIDER_ENTRIES[k] == Entry(WELL_KNOWN[variable], variable)
            else k < |SERVICE_ENTRIES| && SERVICE_ENTRIES[k] == Entry(WELL_KNOWN[variable], variable)
  {
    var ps, ss := PROVIDER_ENTRIES, SERVICE_ENTRIES;
    assert ps[0].variable == "OPENAI_API_KEY" && ps[1].variable == "ANTHROPIC_API_KEY" && ps[2].variable == "GEMINI_API_KEY";
    assert ps[3].variable == "GROQ_API_KEY" && ps[4].variable == "XAI_API_KEY" && ps[5].variable == "DEEPSEEK_API_KEY";
    assert ss[0].variable == "OPENWEATHER_API_KEY" && ss[1].variable == "TAVILY_API_KEY" && ss[2].variable == "EXA_API_KEY";
    assert ss[3].variable == "BRAVE_API_KEY" && ss[4].variable == "SERPAPI_API_KEY" && ss[5].variable == "GOOGLE_API_KEY";
    assert ss[6].variable == "COGTRIX_WHATSAPP_API_KEY" && ss[7].variable == "COGTRIX_TELEGRAM_TOKEN";
    assert ss[8].variable == "COGTRIX_SLACK_BOT_TOKEN";
    if WELL_KNOWN[variable].Provider? {
      k :| 0 <= k < |PROVIDER_ENTRIES| && PROVIDER_ENTRIES[k] == Entry(WELL_KNOWN[variable], variable);
    } else {
      k :| 0 <= k < |SERVICE_ENTRIES| && SERVICE_ENTRIES[k] == Entry(WELL_KNOWN[variable], variable);
    }
  }

  /** No generic key found by the load is for this slot. */
  ghost predicate NoGenericKeyFor(look: Look, names: set<string>, slot: Slot) {
    forall v :: !GenericSets(look, names, slot, v)
  }

  /** A documented variable that resolves gives its own provider or service its value, and one that does not leaves
      the configuration file's, unless a generic key is found for the same provider. */
  lemma VariableConfiguresItsSlot(look: Look, names: set<string>, base: Config, config: Config, variable: string)
    requires variable in WELL_KNOWN && Configures(look, names, base, config)
    requires NoGenericKeyFor(look, names, WELL_KNOWN[variable])
    ensures Value(config, WELL_KNOWN[variable]) ==
            if FindsAny(look, variable) then look[variable].secret else Value(base, WELL_KNOWN[variable])
  {
    var slot := WELL_KNOWN[variable];
    var k := EntryOf(variable);
    var mid := Assign(base, PROVIDER_ENTRIES, look);
    assert Overridden(look, names, Assign(mid, SERVICE_ENTRIES, look), config, slot);
    ProvidersDistinct();
    ServicesDistinct();
    if slot.Provider? {
      AssignsOwn(base, PROVIDER_ENTRIES, look, k);
      AssignAt(mid, mid, SERVICE_ENTRIES, look, slot);
    } else {
      AssignAt(base, base, PROVIDER_ENTRIES, look, slot);
      AssignsOwn(mid, SERVICE_ENTRIES, look, k);
    }
  }

  lemma ProvidersAreWellKnown(e: Entry)
    requires e in PROVIDER_ENTRIES
    ensures e.variable in WELL_KNOWN && WELL_KNOWN[e.variable] == e.slot
  {
  }

  lemma ServicesAreWellKnown(e: Entry)
    requires e in SERVICE_ENTRIES
    ensures e.variable in WELL_KNOWN && WELL_KNOWN[e.variable] == e.slot
  {
  }

  lemma EntriesAreWellKnown(slot: Slot)
    requires slot !in WELL_KNOWN.Values
    ensures (forall e :: e in PROVIDER_ENTRIES ==> e.slot != slot) && forall e :: e in SERVICE_ENTRIES ==> e.slot != slot
  {
    forall e | e in PROVIDER_ENTRIES ensures e.slot != slot { ProvidersAreWellKnown(e); }
    forall e | e in SERVICE_ENTRIES ensures e.slot != slot { ServicesAreWellKnown(e); }
  }

  /** Every other slot is the configuration file's. */
  lemma OtherSlotsStay(look: Look, names: set<string>, base: Config, config: Config, slot: Slot)
    requires slot !in WELL_KNOWN.Values && Configures(look, names, base, config) && NoGenericKeyFor(look, names, slot)
    ensures Value(config, slot) == Value(base, slot)
  {
    var mid := Assign(base, PROVIDER_ENTRIES, look);
    assert Overridden(look, names, Assign(mid, SERVICE_ENTRIES, look), config, slot);
    EntriesAreWellKnown(slot);
    AssignAt(base, base, PROVIDER_ENTRIES, look, slot);
    AssignAt(mid, mid, SERVICE_ENTRIES, look, slot);
  }

  /** The only variable set is `variable`. */
  lemma OnlyThisIsFound(variable: string, v: string, files: map<string, string>, n: string)
    requires v != "" && variable != "" && variable[|variable| - 1] != 'E'
    ensures Lookup(map[variable := v], map[], files, n) == Ok(if n == variable then Some(v) else None)
  {
    assert FileVar(n)[|FileVar(n)| - 1] == 'E';
  }

  lemma WellKnownNames(variable: string)
    requires variable in WELL_KNOWN
    ensures variable != "" && variable[|variable| - 1] != 'E' && variable != "COGTRIX_KEEP_ENV_SECRETS" && Sensitive(variable)
    ensures !IsProviderKey(variable)
  {
    if EndsWith(variable, "\n") { EndsWithLast(variable, "\n"); }
    if StartsWith(variable, KEY_PREFIX) {
      assert variable[8] == variable[..|KEY_PREFIX|][8] == 'P';
    }
  }

  /** With one documented variable set and nothing else, every load succeeds, puts its value into its own slot and
      changes no other, keeps it in the cache, and takes it out of the environment if it is to unset secrets. */
  lemma OneVariableOneKey(variable: string, v: string, files: map<string, string>, unsetSecrets: bool, base: Config,
                          config: Config, t: Store)
    requires variable in WELL_KNOWN && v != ""
    ensures var s := Store(map[variable := v], map[]);
            !LoadFailed(s, files, unsetSecrets, t) &&
            (Loaded(s, files, unsetSecrets, t) && Configures(LooksIn(s, files), GenericNames(s.env, s.cache), base, config) ==>
               config == base[WELL_KNOWN[variable] := v] && t.cache == map[variable := v] &&
               t.env == if unsetSecrets then map[] else s.env)
  {
    var s := Store(map[variable := v], map[]);
    WellKnownNames(variable);
    forall n: string ensures LooksIn(s, files)[n] == Ok(if n == variable then Some(v) else None) {
      OnlyThisIsFound(variable, v, files, n);
    }
    NoGenericNames(variable, v);
    if Loaded(s, files, unsetSecrets, t) && Configures(LooksIn(s, files), GenericNames(s.env, s.cache), base, config) {
      OneSlotSet(LooksIn(s, files), variable, v, base, config);
      OneLeft(s, files, unsetSecrets, variable, v, t);
    }
  }

  lemma NoGenericNames(variable: string, v: string)
    requires variable != "" && variable[|variable| - 1] != 'E' && !IsProviderKey(variable)
    ensures GenericNames(map[variable := v], map[]) == {}
  {
    var env: Env := map[variable := v];
    forall n ensures !IsGeneric(env, map[], n) {
      assert FileVar(n)[|FileVar(n)| - 1] == 'E';
    }
  }

  lemma OneSlotSet(look: Look, variable: string, v: string, base: Config, config: Config)
    requires variable in WELL_KNOWN && Configures(look, {}, base, config)
    requires forall n: string :: n in look && look[n] == Ok(if n == variable then Some(v) else None)
    ensures config == base[WELL_KNOWN[variable] := v]
  {
    var after := base[WELL_KNOWN[variable] := v];
    forall slot ensures Value(config, slot) == Value(after, slot) {
      assert NoGenericKeyFor(look, {}, slot);
      if slot in WELL_KNOWN.Values {
        var n :| n in WELL_KNOWN && WELL_KNOWN[n] == slot;
        VariableConfiguresItsSlot(look, {}, base, config, n);
        VariableConfiguresItsSlot(look, {}, base, config, variable);
      } else {
        OtherSlotsStay(look, {}, base, config, slot);
      }
    }
    SameValues(config, after);
  }

  lemma OneLeft(s: Store, files: map<string, string>, unsetSecrets: bool, variable: string, v: string, t: Store)
    requires variable in WELL_KNOWN && s == Store(map[variable := v], map[]) && Loaded(s, files, unsetSecrets, t)
    requires forall n: string :: LooksIn(s, files)[n] == Ok(if n == variable then Some(v) else None)
    ensures t.cache == map[variable := v] && t.env == if unsetSecrets then map[] else s.env
  {
    DocumentedIsRead(s, unsetSecrets, variable);
    OneCached(LooksIn(s, files), NamesRead(s.env, s.cache, unsetSecrets), variable, v);
    OneUnset(s.env, variable, v, unsetSecrets);
  }

  lemma DocumentedIsRead(s: Store, unsetSecrets: bool, variable: string)
    requires variable in WELL_KNOWN
    ensures variable in NamesRead(s.env, s.cache, unsetSecrets)
  {
    var k := EntryOf(variable);
  }

  lemma OneCached(look: Look, names: set<string>, variable: string, v: string)
    requires variable in names && forall n: string :: n in look && look[n] == Ok(if n == variable then Some(v) else None)
    ensures Absorb(look, map[], names) == map[variable := v]
  {
    assert forall n :: FindsAny(look, n) <==> n == variable;
  }

  lemma OneUnset(env: Env, variable: string, v: string, unsetSecrets: bool)
    requires variable in WELL_KNOWN && env == map[variable := v]
    ensures Unsetting(env, unsetSecrets) <==> unsetSecrets
    ensures Unset(env) == map[]
  {
    WellKnownNames(variable);
    assert Strip("") == "" && Lower("") == "";
    forall n ensures n !in Unset(env) {
      assert n in Unset(env) ==> n in env && !Sensitive(n);
    }
    NothingIn(Unset(env));
  }

  lemma NothingIn(env: Env)
    requires forall n :: n !in env
    ensures env == map[]
  {
  }

  /** A generic key that resolves, the only one for its provider, configures the provider it names in lower case, and
      wins over the provider's documented variable. */
  lemma GenericKeyWins(s: Store, files: map<string, string>, base: Config, config: Config, p: string, v: string)
    requires p != "" && '\n' !in p
    requires var key := "COGTRIX_PROVIDER_" + p + "_API_KEY"; key in s.env && s.env[key] == v != ""
    requires OneKeyEach(LooksIn(s, files), GenericNames(s.env, s.cache))
    requires Configures(LooksIn(s, files), GenericNames(s.env, s.cache), base, config)
    ensures Value(config, Provider(Lower(p))) == Some(v)
  {
    var look, names, slot := LooksIn(s, files), GenericNames(s.env, s.cache), Provider(Lower(p));
    var key := "COGTRIX_PROVIDER_" + p + "_API_KEY";
    assert key == KeyVar(p);
    KeyVarIsProviderKey(p);
    assert look[key] == Lookup(s.env, s.cache, files, key);
    assert GenericSets(look, names, slot, v);
    var mid := Assign(base, PROVIDER_ENTRIES, look);
    assert Overridden(look, names, Assign(mid, SERVICE_ENTRIES, look), config, slot);
  }

  /** Secrets stay inheritable when the escape hatch says so, in any case and with any blanks around. */
  lemma KeptWhenAsked(env: Env, a: string, word: string, b: string)
    requires Blank(a) && Blank(b) && Get(env, "COGTRIX_KEEP_ENV_SECRETS") == a + word + b
    requires word != "" ==> !IsSpace(word[0]) && !IsSpace(word[|word| - 1])
    ensures KeepSecrets(env) <==> Lower(word) in {"1", "true", "yes"}
  {
    StripRemovesBlanks(a, word, b);
  }

  /** The signing secret of the API is read only to be taken out of the environment: it stays in the cache. */
  lemma SigningSecretIsTaken(s: Store, files: map<string, string>, unsetSecrets: bool, t: Store, v: string)
    requires Loaded(s, files, unsetSecrets, t) && Unsetting(s.env, unsetSecrets)
    requires "COGTRIX_JWT_SECRET" in s.env && s.env["COGTRIX_JWT_SECRET"] == v != ""
    ensures "COGTRIX_JWT_SECRET" !in t.env && "COGTRIX_JWT_SECRET" in t.cache && t.cache["COGTRIX_JWT_SECRET"] == v
  {
    LoadUnsetsExactly(s, files, unsetSecrets, t);
  }
}
