/**
 * The prompt-enhancement provider store (src/lib/promptEnhancementService.ts): providers kept in
 * the browser's local storage with their API keys XOR-ed with a per-install salt and base64
 * encoded, the add/update/delete/lookup operations that load, change and save that list, and the
 * endpoint URLs built from a provider's base URL.
 */
module PromptEnhancement {
  import opened Base
  import opened Text
  import Seqs
  import Base64

  /** A UTF-16 code unit, as `charCodeAt` returns it; JavaScript strings are sequences of these. */
  type Unit = bv16
  type Units = seq<Unit>

  datatype ApiFormat = OpenAI | Gemini

  /**
   * A provider. `K` is the form its API key takes: code units in memory, base64 text in storage.
   * The optional temperature and maxTokens are not part of this model.
   */
  datatype ProviderOf<K> = Provider(
    id: string, name: string, apiUrl: string, apiKey: K, model: string, enabled: bool,
    apiFormat: Option<ApiFormat>)

  type Provider = ProviderOf<Units>

  datatype ConfigOf<K> = Config(providers: seq<ProviderOf<K>>, lastUsedProviderId: Option<string>)

  type Config = ConfigOf<Units>
  type StoredConfig = ConfigOf<string>

  /** What `JSON.parse` makes of the stored item; the empty string and malformed text both throw. */
  datatype StoredItem = Unparsable | Parsed(config: StoredConfig)

  const EmptyConfig: Config := Config([], None)

  function WithKey<K, L>(p: ProviderOf<K>, key: L): (r: ProviderOf<L>)
    ensures r.apiKey == key
  {
    Provider(p.id, p.name, p.apiUrl, key, p.model, p.enabled, p.apiFormat)
  }

  // ---------------------------------------------------------------------------------------------
  // The cipher

  /**
   * The salt unit that code unit `i` is XOR-ed with. With an empty salt `charCodeAt(NaN)` is NaN,
   * and XOR with NaN is XOR with 0.
   */
  function SaltUnit(salt: Units, i: nat): Unit {
    if |salt| == 0 then 0 else salt[i % |salt|]
  }

  function XorSalt(text: Units, salt: Units): (r: Units)
    ensures |r| == |text|
  {
    seq(|text|, i requires 0 <= i < |text| => text[i] ^ SaltUnit(salt, i))
  }

  /** XOR-ing with the same salt twice gives the text back. */
  lemma XorSaltInvolution(text: Units, salt: Units)
    ensures XorSalt(XorSalt(text, salt), salt) == text
  {
    var once := XorSalt(text, salt);
    forall i | 0 <= i < |text| ensures XorSalt(once, salt)[i] == text[i] {
      var k := SaltUnit(salt, i);
      assert (text[i] ^ k) ^ k == text[i];
    }
  }

  /** A string `btoa` accepts: every code unit fits in a byte. */
  predicate IsLatin1(u: Units) {
    forall i :: 0 <= i < |u| ==> u[i] < 256
  }

  function ToBytes(u: Units): seq<Base64.Byte>
    requires IsLatin1(u)
  {
    seq(|u|, i requires 0 <= i < |u| => u[i] as int)
  }

  function FromBytes(bs: seq<Base64.Byte>): (u: Units)
    ensures IsLatin1(u)
  {
    seq(|bs|, i requires 0 <= i < |bs| => bs[i] as bv16)
  }

  lemma FromToBytes(u: Units)
    requires IsLatin1(u)
    ensures FromBytes(ToBytes(u)) == u
  {
    var back := FromBytes(ToBytes(u));
    forall i | 0 <= i < |u| ensures back[i] == u[i] {
      assert (u[i] as int) as bv16 == u[i];
    }
  }

  /** `btoa`: throws (None) on a code unit above 255. */
  function Btoa(u: Units): (r: Option<string>)
    ensures r.Some? <==> IsLatin1(u)
  {
    if IsLatin1(u) then Some(Base64.Encode(ToBytes(u))) else None
  }

  /** `atob`: throws (None) on text the forgiving decoder refuses. */
  function Atob(s: string): (r: Option<Units>)
    ensures r.Some? <==> Base64.Decode(s).Some?
  {
    match Base64.Decode(s)
    case None => None
    case Some(bs) => Some(FromBytes(bs))
  }

  lemma AtobBtoa(u: Units)
    requires IsLatin1(u)
    ensures Atob(Btoa(u).value) == Some(u)
  {
    Base64.DecodeEncode(ToBytes(u));
    FromToBytes(u);
  }

  /** `simpleEncrypt`: None where it throws. */
  function Encrypt(text: Units, salt: Units): Option<string> {
    Btoa(XorSalt(text, salt))
  }

  /** `simpleDecrypt`: the empty string where `atob` throws. */
  function Decrypt(encrypted: string, salt: Units): Units {
    match Atob(encrypted)
    case None => []
    case Some(decoded) => XorSalt(decoded, salt)
  }

  /** Decrypting what was encrypted under the same salt gives the text back. */
  lemma DecryptEncrypt(text: Units, salt: Units)
    requires Encrypt(text, salt).Some?
    ensures Decrypt(Encrypt(text, salt).value, salt) == text
  {
    var x := XorSalt(text, salt);
    AtobBtoa(x);
    XorSaltInvolution(text, salt);
  }

  lemma XorByte(a: Unit, b: Unit)
    requires b < 256
    ensures (a ^ b < 256) <==> a < 256
  {
  }

  /**
   * With a salt of byte-sized units (the generated salt is lower-case letters and digits),
   * encryption succeeds exactly for keys whose code units all fit in a byte.
   */
  lemma EncryptSucceedsIff(text: Units, salt: Units)
    requires IsLatin1(salt)
    ensures Encrypt(text, salt).Some? <==> IsLatin1(text)
  {
    var x := XorSalt(text, salt);
    forall i | 0 <= i < |text| ensures (x[i] < 256) <==> text[i] < 256 {
      XorByte(text[i], SaltUnit(salt, i));
    }
  }

  /** Text that is not base64, such as a single character, decrypts to the empty string. */
  lemma DecryptOneChar(c: char, salt: Units)
    requires !Base64.IsAsciiWhitespace(c)
    ensures Decrypt([c], salt) == []
  {
    Base64.OneCharIsInvalid(c);
  }

  /** The loop both `simpleEncrypt` and `simpleDecrypt` run, one code unit at a time. */
  method XorLoop(text: Units, salt: Units) returns (result: Units)
    ensures result == XorSalt(text, salt)
  {
    result := [];
    var i := 0;
    while i < |text|
      invariant 0 <= i <= |text|
      invariant |result| == i
      invariant forall j :: 0 <= j < i ==> result[j] == text[j] ^ SaltUnit(salt, j)
    {
      var k: Unit := if |salt| == 0 then 0 else salt[i % |salt|];
      result := result + [text[i] ^ k];
      i := i + 1;
    }
  }

  /** `simpleEncrypt`. */
  method SimpleEncrypt(text: Units, salt: Units) returns (r: Option<string>)
    ensures r == Encrypt(text, salt)
  {
    var result := XorLoop(text, salt);
    r := Btoa(result);
  }

  /** `simpleDecrypt`: the empty string where `atob` throws. */
  method SimpleDecrypt(encrypted: string, salt: Units) returns (r: Units)
    ensures r == Decrypt(encrypted, salt)
  {
    var decoded := Atob(encrypted);
    if decoded.None? {
      return [];
    }
    r := XorLoop(decoded.value, salt);
  }

  // ---------------------------------------------------------------------------------------------
  // The stored configuration

  /** `getEncryptionSalt`: the stored salt unless it is missing or empty, else a fresh random one. */
  function CurrentSalt(stored: Option<Units>, random: Units): (s: Units)
    ensures stored.Some? && stored.value != [] ==> s == stored.value
  {
    if stored.Some? && stored.value != [] then stored.value else random
  }

  /** Once the salt is stored, asking again gives the same salt. */
  lemma CurrentSaltStable(stored: Option<Units>, random: Units)
    ensures CurrentSalt(Some(CurrentSalt(stored, random)), random) == CurrentSalt(stored, random)
  {
  }

  predicate KeyEncrypts(p: Provider, salt: Units) {
    Encrypt(p.apiKey, salt).Some?
  }

  function EncryptedProvider(p: Provider, salt: Units): ProviderOf<string>
    requires KeyEncrypts(p, salt)
  {
    WithKey(p, Encrypt(p.apiKey, salt).value)
  }

  predicate AllKeysEncrypt(ps: seq<Provider>, salt: Units) {
    forall i :: 0 <= i < |ps| ==> KeyEncrypts(ps[i], salt)
  }

  /** Every provider with its key encrypted, in order. */
  function EncryptedAll(ps: seq<Provider>, salt: Units): (r: seq<ProviderOf<string>>)
    requires AllKeysEncrypt(ps, salt)
    ensures |r| == |ps| && forall i :: 0 <= i < |ps| ==> r[i] == EncryptedProvider(ps[i], salt)
  {
    seq(|ps|, i requires 0 <= i < |ps| && KeyEncrypts(ps[i], salt) => EncryptedProvider(ps[i], salt))
  }

  /** The providers with their keys encrypted, in order; None when any key fails to encrypt. */
  function EncryptProviders(ps: seq<Provider>, salt: Units): Option<seq<ProviderOf<string>>> {
    if AllKeysEncrypt(ps, salt) then Some(EncryptedAll(ps, salt)) else None
  }

  /** The `providers.map` of `saveConfig`, stopping at the first key that fails to encrypt. */
  method EncryptKeys(ps: seq<Provider>, salt: Units) returns (r: Option<seq<ProviderOf<string>>>)
    ensures r == EncryptProviders(ps, salt)
  {
    var done: seq<ProviderOf<string>> := [];
    var i := 0;
    assert EncryptedAll(ps[..0], salt) == [];
    while i < |ps|
      invariant 0 <= i <= |ps|
      invariant EncryptProviders(ps[..i], salt) == Some(done)
    {
      var p := EncryptProvider(ps[i], salt);
      if p.None? {
        EncryptionFails(ps, salt, i);
        return None;
      }
      EncryptionStep(ps, salt, i, done);
      done := done + [p.value];
      i := i + 1;
    }
    assert ps[..i] == ps;
    return Some(done);
  }

  /** One key that fails to encrypt fails the whole list. */
  lemma EncryptionFails(ps: seq<Provider>, salt: Units, i: nat)
    requires i < |ps| && !KeyEncrypts(ps[i], salt)
    ensures EncryptProviders(ps, salt).None?
  {
  }

  lemma AllKeysEncryptStep(ps: seq<Provider>, salt: Units, i: nat)
    requires i < |ps| && AllKeysEncrypt(ps[..i], salt) && KeyEncrypts(ps[i], salt)
    ensures AllKeysEncrypt(ps[..i + 1], salt)
  {
    var front, next := ps[..i], ps[..i + 1];
    forall j | 0 <= j < |next| ensures KeyEncrypts(next[j], salt) {
      if j < i {
        assert next[j] == front[j];
      }
    }
  }

  /** One more key that encrypts extends the encrypted list by its provider. */
  lemma EncryptionStep(ps: seq<Provider>, salt: Units, i: nat, done: seq<ProviderOf<string>>)
    requires i < |ps| && EncryptProviders(ps[..i], salt) == Some(done) && KeyEncrypts(ps[i], salt)
    ensures EncryptProviders(ps[..i + 1], salt) == Some(done + [EncryptedProvider(ps[i], salt)])
  {
    var front, next := ps[..i], ps[..i + 1];
    AllKeysEncryptStep(ps, salt, i);
    var all := EncryptedAll(next, salt);
    forall j | 0 <= j < i ensures all[j] == done[j] {
      assert next[j] == front[j];
    }
    assert all == done + [EncryptedProvider(ps[i], salt)];
  }

  /** The callback of that map: the provider with its key encrypted, failing where `btoa` throws. */
  method EncryptProvider(p: Provider, salt: Units) returns (r: Option<ProviderOf<string>>)
    ensures r.Some? <==> KeyEncrypts(p, salt)
    ensures r.Some? ==> r.value == EncryptedProvider(p, salt)
  {
    var key := SimpleEncrypt(p.apiKey, salt);
    if key.None? {
      return None;
    }
    return Some(WithKey(p, key.value));
  }

  function DecryptProviders(ps: seq<ProviderOf<string>>, salt: Units): (r: seq<Provider>)
    ensures |r| == |ps|
    ensures forall i :: 0 <= i < |ps| ==> r[i] == WithKey(ps[i], Decrypt(ps[i].apiKey, salt))
  {
    seq(|ps|, i requires 0 <= i < |ps| => WithKey(ps[i], Decrypt(ps[i].apiKey, salt)))
  }

  /** The configuration `saveConfig` stores: only the API keys differ from the input. */
  function EncryptConfig(c: Config, salt: Units): (r: Option<StoredConfig>)
    ensures r.Some? <==> EncryptProviders(c.providers, salt).Some?
    ensures r.Some? ==> r.value.lastUsedProviderId == c.lastUsedProviderId
  {
    match EncryptProviders(c.providers, salt)
    case None => None
    case Some(ps) => Some(Config(ps, c.lastUsedProviderId))
  }

  /** `loadConfig`'s result: the empty configuration for a missing or unparsable item. */
  function Loaded(item: Option<StoredItem>, salt: Units): (c: Config)
    ensures item.None? || item.value.Unparsable? ==> c == EmptyConfig
  {
    if item.Some? && item.value.Parsed? then
      Config(DecryptProviders(item.value.config.providers, salt), item.value.config.lastUsedProviderId)
    else EmptyConfig
  }

  /** The item after `saveConfig`: unchanged when encryption throws. */
  function Saved(item: Option<StoredItem>, c: Config, salt: Units): Option<StoredItem> {
    match EncryptConfig(c, salt)
    case None => item
    case Some(sc) => Some(Parsed(sc))
  }

  /** Loading what was saved under the same salt gives the saved configuration back. */
  lemma LoadSaved(item: Option<StoredItem>, c: Config, salt: Units)
    requires EncryptConfig(c, salt).Some?
    ensures Loaded(Saved(item, c, salt), salt) == c
  {
    var sc := EncryptConfig(c, salt).value;
    var back := DecryptProviders(sc.providers, salt);
    forall i | 0 <= i < |c.providers| ensures back[i] == c.providers[i] {
      DecryptEncrypt(c.providers[i].apiKey, salt);
    }
  }

  /** A key that does not encrypt leaves the stored item as it was. */
  lemma SaveFailureKeepsItem(item: Option<StoredItem>, c: Config, salt: Units, i: nat)
    requires i < |c.providers| && Encrypt(c.providers[i].apiKey, salt).None?
    ensures Saved(item, c, salt) == item
  {
  }

  // ---------------------------------------------------------------------------------------------
  // The provider list operations, on values

  predicate IsEnabled(p: Provider) {
    p.enabled
  }

  function HasId(id: string): Provider -> bool {
    (p: Provider) => p.id == id
  }

  function LacksId(id: string): Provider -> bool {
    (p: Provider) => p.id != id
  }

  /** `findIndex` by id. */
  function FindIndex(ps: seq<Provider>, id: string): (r: Option<nat>)
    ensures r.Some? ==> (r.value < |ps| && ps[r.value].id == id
      && forall j :: 0 <= j < r.value ==> ps[j].id != id)
    ensures r.None? ==> forall j :: 0 <= j < |ps| ==> ps[j].id != id
  {
    if ps == [] then None
    else if ps[0].id == id then Some(0)
    else match FindIndex(ps[1..], id)
      case None =>
        assert forall j :: 1 <= j < |ps| ==> ps[j] == ps[1..][j - 1];
        None
      case Some(q) =>
        assert ps[q + 1] == ps[1..][q];
        assert forall j :: 1 <= j < q + 1 ==> ps[j] == ps[1..][j - 1];
        Some(q + 1)
  }

  /** A `Partial<PromptEnhancementProvider>`: the fields present in the update object. */
  datatype ProviderUpdate = ProviderUpdate(
    id: Option<string>, name: Option<string>, apiUrl: Option<string>, apiKey: Option<Units>,
    model: Option<string>, enabled: Option<bool>, apiFormat: Option<Option<ApiFormat>>)

  /** `{ ...p, ...updates }`. */
  function Merge(p: Provider, u: ProviderUpdate): (r: Provider)
    ensures u.id.Some? ==> r.id == u.id.value
    ensures u.id.None? ==> r.id == p.id
    ensures u.apiKey.Some? ==> r.apiKey == u.apiKey.value
    ensures u.apiKey.None? ==> r.apiKey == p.apiKey
    ensures u.enabled.Some? ==> r.enabled == u.enabled.value
    ensures u.enabled.None? ==> r.enabled == p.enabled
  {
    Provider(
      if u.id.Some? then u.id.value else p.id,
      if u.name.Some? then u.name.value else p.name,
      if u.apiUrl.Some? then u.apiUrl.value else p.apiUrl,
      if u.apiKey.Some? then u.apiKey.value else p.apiKey,
      if u.model.Some? then u.model.value else p.model,
      if u.enabled.Some? then u.enabled.value else p.enabled,
      if u.apiFormat.Some? then u.apiFormat.value else p.apiFormat)
  }

  /** An update with no fields changes nothing. */
  lemma MergeNothing(p: Provider)
    ensures Merge(p, ProviderUpdate(None, None, None, None, None, None, None)) == p
  {
  }

  /** The list after `updateProvider`: the first provider with the id merged, or the same list. */
  function Updated(ps: seq<Provider>, id: string, u: ProviderUpdate): (r: seq<Provider>)
    ensures |r| == |ps|
    ensures FindIndex(ps, id).None? ==> r == ps
    ensures FindIndex(ps, id).Some? ==> var k := FindIndex(ps, id).value;
      r[k] == Merge(ps[k], u) && forall j :: 0 <= j < |ps| && j != k ==> r[j] == ps[j]
  {
    match FindIndex(ps, id)
    case None => ps
    case Some(k) => ps[k := Merge(ps[k], u)]
  }

  /** Only the first provider with the id is updated; a later one with the same id is not. */
  lemma UpdateTouchesFirstOnly(ps: seq<Provider>, id: string, u: ProviderUpdate, j: nat)
    requires j < |ps| && ps[j].id == id
    requires exists i :: 0 <= i < j && ps[i].id == id
    ensures Updated(ps, id, u)[j] == ps[j]
  {
    var k := FindIndex(ps, id).value;
    assert k < j;
  }

  /** After `deleteProvider` no provider has the id, and every other one stays, in order. */
  lemma DeleteRemovesId(ps: seq<Provider>, id: string)
    ensures forall p :: p in Seqs.Filter(ps, LacksId(id)) ==> p.id != id
    ensures forall p :: p in ps && p.id != id ==> p in Seqs.Filter(ps, LacksId(id))
    ensures Seqs.IsSubsequence(Seqs.Filter(ps, LacksId(id)), ps)
  {
    Seqs.FilterIsSubsequence(ps, LacksId(id));
  }

  // ---------------------------------------------------------------------------------------------
  // Base URLs

  /** The base URL with one trailing '/' dropped. */
  function BaseUrl(apiUrl: string): (r: string)
    ensures r == apiUrl || (EndsWith(apiUrl, "/") && r + "/" == apiUrl)
  {
    if EndsWith(apiUrl, "/") then apiUrl[..|apiUrl| - 1] else apiUrl
  }

  /** At most one slash goes: a URL ending in a single '/' joins without "//", one ending in "//" keeps one. */
  lemma BaseUrlSlashes(apiUrl: string)
    ensures |BaseUrl(apiUrl)| >= |apiUrl| - 1
    ensures !EndsWith(apiUrl, "//") ==> !EndsWith(BaseUrl(apiUrl), "/")
    ensures EndsWith(apiUrl, "//") ==> EndsWith(BaseUrl(apiUrl), "/")
  {
    var r := BaseUrl(apiUrl);
    if EndsWith(apiUrl, "/") && |apiUrl| >= 2 {
      assert r[|r| - 1..] == apiUrl[|apiUrl| - 2..|apiUrl| - 1];
      if !EndsWith(apiUrl, "//") {
        assert apiUrl[|apiUrl| - 2..] == [apiUrl[|apiUrl| - 2]] + "/";
      } else {
        assert apiUrl[|apiUrl| - 2] == '/';
      }
    }
  }

  /** The OpenAI-format request URL. */
  function ChatEndpoint(apiUrl: string): (r: string)
    ensures StartsWith(r, BaseUrl(apiUrl)) && EndsWith(r, "/chat/completions")
  {
    BaseUrl(apiUrl) + "/chat/completions"
  }

  /** The Gemini-format request URL, given the key's text. */
  function GeminiEndpoint(apiUrl: string, model: string, keyText: string): (r: string)
    ensures StartsWith(r, BaseUrl(apiUrl) + "/v1beta/models/" + model + ":generateContent?key=")
  {
    BaseUrl(apiUrl) + "/v1beta/models/" + model + ":generateContent?key=" + keyText
  }

  /** `callEnhancementAPI` uses the Gemini format only when the provider asks for it. */
  function EndpointOf(p: Provider, keyText: string): (r: string)
    ensures p.apiFormat != Some(Gemini) ==> r == ChatEndpoint(p.apiUrl)
    ensures p.apiFormat == Some(Gemini) ==> r == GeminiEndpoint(p.apiUrl, p.model, keyText)
  {
    if p.apiFormat == Some(Gemini) then GeminiEndpoint(p.apiUrl, p.model, keyText) else ChatEndpoint(p.apiUrl)
  }

  // ---------------------------------------------------------------------------------------------
  // Local storage

  /**
   * The two local-storage items the service uses: the provider list and the salt. `random` in
   * each method is what `Math.random().toString(36).substring(2, 15)` would give if a salt has
   * to be generated.
   */
  class ProviderStorage {
    var item: Option<StoredItem>
    var salt: Option<Units>

    constructor(item: Option<StoredItem>, salt: Option<Units>)
      ensures this.item == item && this.salt == salt
    {
      this.item := item;
      this.salt := salt;
    }

    method GetEncryptionSalt(random: Units) returns (s: Units)
      modifies this
      ensures s == CurrentSalt(old(salt), random)
      ensures salt == Some(s) && item == old(item)
    {
      if salt.Some? && salt.value != [] {
        s := salt.value;
      } else {
        s := random;
        salt := Some(s);
      }
    }

    /** `loadConfig`: the salt is fetched (and maybe created) only once the item has parsed. */
    method LoadConfig(random: Units) returns (c: Config)
      modifies this
      ensures c == Loaded(old(item), CurrentSalt(old(salt), random))
      ensures item == old(item)
      ensures salt == if old(item).Some? && old(item).value.Parsed? then Some(CurrentSalt(old(salt), random)) else old(salt)
    {
      if item.None? || item.value.Unparsable? {
        return EmptyConfig;
      }
      var stored := item.value.config;
      var s := GetEncryptionSalt(random);
      var ps: seq<Provider> := [];
      var i := 0;
      while i < |stored.providers|
        invariant 0 <= i <= |stored.providers|
        invariant item == old(item) && salt == Some(s)
        invariant ps == DecryptProviders(stored.providers[..i], s)
      {
        var key := SimpleDecrypt(stored.providers[i].apiKey, s);
        ps := ps + [WithKey(stored.providers[i], key)];
        i := i + 1;
      }
      assert stored.providers[..i] == stored.providers;
      c := Config(ps, stored.lastUsedProviderId);
    }

    /** `saveConfig`: nothing is stored when a key fails to encrypt. */
    method SaveConfig(c: Config, random: Units)
      modifies this
      ensures salt == Some(CurrentSalt(old(salt), random))
      ensures item == Saved(old(item), c, CurrentSalt(old(salt), random))
    {
      var s := GetEncryptionSalt(random);
      var encrypted := EncryptKeys(c.providers, s);
      if encrypted.Some? {
        item := Some(Parsed(Config(encrypted.value, c.lastUsedProviderId)));
      }
    }

    /** `getEnabledProviders`. */
    method GetEnabledProviders(random: Units) returns (ps: seq<Provider>)
      modifies this
      ensures ps == Seqs.Filter(Loaded(old(item), CurrentSalt(old(salt), random)).providers, IsEnabled)
      ensures item == old(item)
    {
      var c := LoadConfig(random);
      ps := Seqs.Filter(c.providers, IsEnabled);
    }

    /** `getProvider`: the first provider with the id. */
    method GetProvider(id: string, random: Units) returns (p: Option<Provider>)
      modifies this
      ensures var ps := Loaded(old(item), CurrentSalt(old(salt), random)).providers;
        match FindIndex(ps, id)
        case None => p.None?
        case Some(k) => p == Some(ps[k])
      ensures item == old(item)
    {
      var c := LoadConfig(random);
      var k := FindIndex(c.providers, id);
      if k.None? {
        return None;
      }
      p := Some(c.providers[k.value]);
    }

    /** `addProvider`: load, append, save. */
    method AddProvider(provider: Provider, random: Units)
      modifies this
      ensures var s := CurrentSalt(old(salt), random);
        var c := Loaded(old(item), s);
        salt == Some(s) && item == Saved(old(item), c.(providers := c.providers + [provider]), s)
    {
      var c := LoadConfig(random);
      CurrentSaltStable(old(salt), random);
      SaveConfig(c.(providers := c.providers + [provider]), random);
    }

    /** `updateProvider`: nothing is saved when no provider has the id. */
    method UpdateProvider(id: string, updates: ProviderUpdate, random: Units)
      modifies this
      ensures var s := CurrentSalt(old(salt), random);
        var c := Loaded(old(item), s);
        if FindIndex(c.providers, id).None? then item == old(item)
        else salt == Some(s) && item == Saved(old(item), c.(providers := Updated(c.providers, id, updates)), s)
    {
      var c := LoadConfig(random);
      var index := FindIndex(c.providers, id);
      if index.Some? {
        CurrentSaltStable(old(salt), random);
        var k := index.value;
        SaveConfig(c.(providers := c.providers[k := Merge(c.providers[k], updates)]), random);
      }
    }

    /** `deleteProvider`: load, drop every provider with the id, save. */
    method DeleteProvider(id: string, random: Units)
      modifies this
      ensures var s := CurrentSalt(old(salt), random);
        var c := Loaded(old(item), s);
        salt == Some(s) && item == Saved(old(item), c.(providers := Seqs.Filter(c.providers, LacksId(id))), s)
    {
      var c := LoadConfig(random);
      CurrentSaltStable(old(salt), random);
      SaveConfig(c.(providers := Seqs.Filter(c.providers, LacksId(id))), random);
    }
  }

  /**
   * Adding a provider and loading again (with a non-empty salt, and keys that encrypt) gives the
   * old list with the provider at the end.
   */
  lemma AddThenLoad(item: Option<StoredItem>, storedSalt: Option<Units>, provider: Provider, random: Units, later: Units)
    requires CurrentSalt(storedSalt, random) != []
    requires var s := CurrentSalt(storedSalt, random);
      var c := Loaded(item, s);
      EncryptConfig(c.(providers := c.providers + [provider]), s).Some?
    ensures var s := CurrentSalt(storedSalt, random);
      var c := Loaded(item, s);
      Loaded(Saved(item, c.(providers := c.providers + [provider]), s), CurrentSalt(Some(s), later)).providers
        == c.providers + [provider]
  {
    var s := CurrentSalt(storedSalt, random);
    var c := Loaded(item, s);
    LoadSaved(item, c.(providers := c.providers + [provider]), s);
  }

  /** Deleting and loading again gives exactly the providers without the id, in their order. */
  lemma DeleteThenLoad(item: Option<StoredItem>, storedSalt: Option<Units>, id: string, random: Units, later: Units)
    requires CurrentSalt(storedSalt, random) != []
    requires var s := CurrentSalt(storedSalt, random);
      var c := Loaded(item, s);
      EncryptConfig(c.(providers := Seqs.Filter(c.providers, LacksId(id))), s).Some?
    ensures var s := CurrentSalt(storedSalt, random);
      var c := Loaded(item, s);
      var after := Loaded(Saved(item, c.(providers := Seqs.Filter(c.providers, LacksId(id))), s), CurrentSalt(Some(s), later));
      after.providers == Seqs.Filter(c.providers, LacksId(id))
      && (forall p :: p in after.providers ==> p.id != id)
      && after.lastUsedProviderId == c.lastUsedProviderId
  {
    var s := CurrentSalt(storedSalt, random);
    var c := Loaded(item, s);
    LoadSaved(item, c.(providers := Seqs.Filter(c.providers, LacksId(id))), s);
  }
}
