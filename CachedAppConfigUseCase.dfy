/**
 * `CachedAppConfigUseCaseImpl`: reads the remote configuration that was
 * cached in `config.json`, falling back to the default configuration when
 * the file is missing or cannot be read or parsed, and looks up provider
 * names in it.
 *
 * The file is a value (`ConfigFile`): absent, present but unreadable, or
 * present with its text. The JSON parser is a function parameter whose
 * outcome is a configuration, `null`, or an exception.
 */
module CachedAppConfigUseCase {
  import opened Wrappers

  /** A test or event provider listed in the configuration. */
  datatype Provider = Provider(name: string, code: string)

  /**
   * The remote configuration. The model keeps the provider list that the
   * lookups read; every other setting is carried as uninterpreted text.
   */
  datatype AppConfig = AppConfig(providerIdentifiers: seq<Provider>, otherSettings: map<string, string>)

  /** `AppConfig()`, the configuration used when there is no usable cached one. */
  const DefaultAppConfig := AppConfig([], map[])

  /** The state of `config.json` in the files directory. */
  datatype ConfigFile = Absent | Unreadable | Present(text: string)

  /** What the JSON parser does with a text. */
  datatype ParseOutcome = Parsed(config: AppConfig) | ParsedNull | ParseThrew

  /** The cached text parses into a configuration: the file is there, reads, and parses to a non-null value. */
  predicate HasParsedConfig(file: ConfigFile, parse: string -> ParseOutcome)
  {
    file.Present? && parse(file.text).Parsed?
  }

  /** `isCachedAppConfigValid`: any exception, a missing file or a `null` parse is `false`. */
  function IsCachedAppConfigValid(file: ConfigFile, parse: string -> ParseOutcome): (valid: bool)
    ensures file.Absent? || file.Unreadable? ==> !valid
    ensures file.Present? && (parse(file.text).ParsedNull? || parse(file.text).ParseThrew?) ==> !valid
    ensures file.Present? && parse(file.text).Parsed? ==> valid
  {
    match file
    case Absent => false
    case Unreadable => false
    case Present(text) => parse(text).Parsed?
  }

  /** `getCachedAppConfig`: the parsed configuration when there is one, the default otherwise. */
  function GetCachedAppConfig(file: ConfigFile, parse: string -> ParseOutcome): (config: AppConfig)
    ensures IsCachedAppConfigValid(file, parse) ==> config == parse(file.text).config
    ensures !IsCachedAppConfigValid(file, parse) ==> config == DefaultAppConfig
  {
    if !file.Present? then DefaultAppConfig
    else
      match parse(file.text)
      case Parsed(config) => config
      case ParsedNull => DefaultAppConfig
      case ParseThrew => DefaultAppConfig
  }

  /**
   * A configuration other than the default always comes from a valid
   * cache, and a valid cache is always what is returned.
   */
  lemma CachedConfigAgreesWithValidity(file: ConfigFile, parse: string -> ParseOutcome)
    ensures GetCachedAppConfig(file, parse) != DefaultAppConfig ==> IsCachedAppConfigValid(file, parse)
    ensures IsCachedAppConfigValid(file, parse) <==> HasParsedConfig(file, parse)
  {
  }

  /** `firstOrNull { it.code == providerIdentifier }`: the first provider whose code is the identifier. */
  function FindProvider(providers: seq<Provider>, providerIdentifier: Option<string>): (r: Option<Provider>)
    ensures r.None? <==> forall i :: 0 <= i < |providers| ==> providerIdentifier != Some(providers[i].code)
    ensures r.Some? ==>
      exists i :: 0 <= i < |providers| && providers[i] == r.value
        && providerIdentifier == Some(providers[i].code)
        && (forall j :: 0 <= j < i ==> providerIdentifier != Some(providers[j].code))
  {
    if providers == [] then None
    else if providerIdentifier == Some(providers[0].code) then Some(providers[0])
    else
      var r := FindProvider(providers[1..], providerIdentifier);
      assert forall i :: 1 <= i < |providers| ==> providers[i] == providers[1..][i - 1];
      r
  }

  /**
   * `getProviderName`: the name of the first provider in the cached
   * configuration whose code is the identifier, or `""` if none is.
   */
  function GetProviderName(file: ConfigFile, parse: string -> ParseOutcome, providerIdentifier: Option<string>)
    : (name: string)
    ensures var providers := GetCachedAppConfig(file, parse).providerIdentifiers;
      || (exists i :: 0 <= i < |providers| && name == providers[i].name
            && providerIdentifier == Some(providers[i].code)
            && forall j :: 0 <= j < i ==> providerIdentifier != Some(providers[j].code))
      || (name == "" && forall i :: 0 <= i < |providers| ==> providerIdentifier != Some(providers[i].code))
  {
    match FindProvider(GetCachedAppConfig(file, parse).providerIdentifiers, providerIdentifier)
    case Some(provider) => provider.name
    case None => ""
  }

  /** Without a valid cached configuration no provider is known, and every name is empty. */
  lemma NoValidCacheNoNames(file: ConfigFile, parse: string -> ParseOutcome, providerIdentifier: Option<string>)
    requires !IsCachedAppConfigValid(file, parse)
    ensures GetProviderName(file, parse, providerIdentifier) == ""
  {
  }

  /** A `null` identifier never matches, since every provider has a code. */
  lemma NullIdentifierHasNoName(file: ConfigFile, parse: string -> ParseOutcome)
    ensures GetProviderName(file, parse, None) == ""
  {
  }

  /** The providers after a match do not matter: appending any list leaves the lookup unchanged. */
  lemma {:induction false} MatchIgnoresLaterProviders(
    providers: seq<Provider>, later: seq<Provider>, providerIdentifier: Option<string>)
    requires FindProvider(providers, providerIdentifier).Some?
    ensures FindProvider(providers + later, providerIdentifier) == FindProvider(providers, providerIdentifier)
  {
    if providerIdentifier != Some(providers[0].code) {
      assert (providers + later)[1..] == providers[1..] + later;
      MatchIgnoresLaterProviders(providers[1..], later, providerIdentifier);
    }
  }
}
